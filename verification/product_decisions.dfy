/** When each product operation is refused and for which reason, said of the database and the request alone. */
module ProductDecisions {
  import opened Wrappers
  import opened Documents
  import opened Text
  import opened Requests
  import opened Schemas
  import opened Builder
  import opened Registry
  import opened Products
  import opened Consistency
  import opened Visibility
  import opened ProductSafety
  import opened KeyEdits
  import opened ProductEffects

  // ---- what the decisions look at ----

  /** `services.yaml` names the product. */
  ghost predicate Known(s: Session) {
    IsRegistryFile(s.registry) && exists i :: 0 <= i < |ServicesOf(s.registry)| && ServicesOf(s.registry)[i].name == s.service
  }

  /** The registry's names and uids, as `services.find` sees them. */
  lemma FoundIff(s: Session, uid: Number)
    requires Ready(s) && IsSafeInteger(uid) && uid.r.Floor >= 0
    ensures Entries(s.registry).Ok? && IsRegistryFile(s.registry)
    ensures
      var byName := Find(Entries(s.registry).value, "name", Str(s.service));
      var byUid := Find(Entries(s.registry).value, "uid", Num(uid));
      && byName.Ok? && byUid.Ok? && (byName.value.Some? <==> Known(s))
      && (byUid.value.Some? <==>
            exists i :: 0 <= i < |ServicesOf(s.registry)| && ServicesOf(s.registry)[i].uid == uid.r.Floor)
  {
    var entries := Entries(s.registry).value;
    EntriesOk(s.registry);
    FindAnswers(entries, "name", Str(s.service));
    FindAnswers(entries, "uid", Num(uid));
    forall i | 0 <= i < |entries|
      ensures HasField(entries[i], "name", Str(s.service)) <==> ServicesOf(s.registry)[i].name == s.service
      ensures HasField(entries[i], "uid", Num(uid)) <==> ServicesOf(s.registry)[i].uid == uid.r.Floor
    {
      SameUid(entries[i], uid);
    }
  }

  /** On a consistent tree a product is unknown exactly if the registry does not name it. */
  lemma KnownIff(s: Session)
    requires Ready(s)
    ensures RequireProduct(s).Ok? <==> Known(s)
    ensures RequireProduct(s).Err? ==> RequireProduct(s) == Err(UnknownProduct)
    ensures Known(s) ==> s.schema.Some? && SchemaYaml(s.service) in s.files && SchemaFields(s).Ok?
  {
    FoundIff(s, Int(0));
    if Known(s) {
      assert Declares(s.registry, s.service);
      ReadyKnown(s);
    }
  }

  lemma ReadyKnown(s: Session)
    requires Ready(s) && SchemaYaml(s.service) in s.files
    ensures s.schema.Some? && SchemaFields(s).Ok?
  {
    assert IsSchemaPath(SchemaYaml(s.service));
    ReadySchema(s);
  }

  predicate IsMetadata(key: string) {
    key == "version" || key == "sops"
  }

  /** What an edit may name: no metadata, and a value for every key. */
  predicate Alterable(changes: seq<Change>) {
    forall i :: 0 <= i < |changes| ==> !IsMetadata(changes[i].key) && changes[i].value.Some?
  }

  ghost predicate LastNamed(changes: seq<Change>, i: nat, key: string) {
    i < |changes| && changes[i].key == key && forall j :: i < j < |changes| ==> changes[j].key != key
  }

  /** `after` is `before` with each key named taking the last value given for it. */
  ghost predicate Takes(before: Config, changes: seq<Change>, after: Config) {
    forall key ::
      && ((forall i :: 0 <= i < |changes| ==> changes[i].key != key) ==> At(after, key) == At(before, key))
      && (forall i: nat :: LastNamed(changes, i, key) ==> At(after, key) == changes[i].value)
  }

  lemma {:induction false} AlterableIff(config: Config, changes: seq<Change>)
    ensures ApplyChanges(config, changes).Ok? <==> Alterable(changes)
    decreases |changes|
  {
    if changes != [] {
      assert forall i :: 0 < i < |changes| ==> changes[i] == changes[1..][i - 1];
      if changes[0].key !in METADATA && changes[0].value.Some? {
        AlterableIff(config[changes[0].key := changes[0].value.value], changes[1..]);
      }
    }
  }

  lemma {:induction false} NamedTaken(config: Config, changes: seq<Change>, key: string, i: nat)
    requires ApplyChanges(config, changes).Ok? && LastNamed(changes, i, key)
    ensures At(ApplyChanges(config, changes).value, key) == changes[i].value
    decreases |changes|
  {
    var next, rest := config[changes[0].key := changes[0].value.value], changes[1..];
    assert forall j :: 0 <= j < |rest| ==> rest[j] == changes[j + 1];
    if i == 0 {
      UnnamedKept(next, rest, key);
    } else {
      NamedTaken(next, rest, key, i - 1);
    }
  }

  lemma ChangesTake(config: Config, changes: seq<Change>)
    requires ApplyChanges(config, changes).Ok?
    ensures Takes(config, changes, ApplyChanges(config, changes).value)
  {
    var after := ApplyChanges(config, changes).value;
    forall key
      ensures (forall i :: 0 <= i < |changes| ==> changes[i].key != key) ==> At(after, key) == At(config, key)
      ensures forall i: nat :: LastNamed(changes, i, key) ==> At(after, key) == changes[i].value
    {
      if forall i :: 0 <= i < |changes| ==> changes[i].key != key {
        UnnamedKept(config, changes, key);
      }
      forall i: nat | LastNamed(changes, i, key) ensures At(after, key) == changes[i].value {
        NamedTaken(config, changes, key, i);
      }
    }
  }

  lemma {:induction false} SomeLast(changes: seq<Change>, key: string) returns (i: nat)
    requires exists j :: 0 <= j < |changes| && changes[j].key == key
    ensures LastNamed(changes, i, key)
  {
    var n := |changes| - 1;
    if changes[n].key == key {
      i := n;
    } else {
      i := SomeLast(changes[..n], key);
    }
  }

  /** Only one document takes the changes. */
  lemma TakesIsUnique(before: Config, changes: seq<Change>, a: Config, b: Config)
    requires Takes(before, changes, a) && Takes(before, changes, b)
    ensures a == b
  {
    forall key ensures At(a, key) == At(b, key) {
      if exists j :: 0 <= j < |changes| && changes[j].key == key {
        var i := SomeLast(changes, key);
      }
    }
    SameEverywhere(a, b);
  }

  lemma SameEverywhere(a: Config, b: Config)
    requires forall key :: At(a, key) == At(b, key)
    ensures a == b
  {
    forall k ensures (k in a <==> k in b) && (k in a && k in b ==> a[k] == b[k]) {
      assert At(a, k) == At(b, k);
    }
  }

  /** A filled secret that encryption will hide. */
  predicate Hideable(host: Host, key: string, v: Yaml) {
    v == Null || v == Str("") || (host.sealing && host.seals(key) && !v.List?) || IsCiphertext(v)
  }

  /** Every secret among the values can be stored. */
  ghost predicate Storable(host: Host, keys: Keys, config: Config) {
    forall k :: k in config && !IsMetadata(k) && k in keys && keys[k].secret ==> Hideable(host, k, config[k])
  }

  /** What `encode` refuses: a counter past what a number holds exactly, and a secret left in the clear. */
  lemma EncodeIff(s: Session, e: string, value: Config, n: nat, keys: Keys)
    requires value == Versioned(value, n)
    ensures Encode(s, e, value, keys).Ok? <==> n <= MAX_SAFE_INTEGER && Storable(s.ctx.host, keys, value)
    ensures n > MAX_SAFE_INTEGER ==> Encode(s, e, value, keys) == Err(VersionExhausted)
    ensures n <= MAX_SAFE_INTEGER && Encode(s, e, value, keys).Err? ==> Encode(s, e, value, keys) == Err(NotEncrypted)
  {
    assert (n as real).Floor == n;
    assert value["version"] == Num(Int(n));
    var held := Encrypt(s.ctx.host, value, s.ctx.nonce(e));
    forall k | k in value && k !in METADATA && k in keys && keys[k].secret
      ensures k in held && (SecretHidden(value[k], held[k]) <==> Hideable(s.ctx.host, k, value[k]))
    {
    }
  }

  // ---- retirement ----

  /** Marking or unmarking is refused for a product that does not exist, and marking beside an archive unless forced. */
  lemma RetireDecides(s: Session, retiring: bool, force: bool)
    requires Ready(s)
    ensures
      var r := SetRetiring(s, retiring, force);
      && (!Known(s) ==> r == Err(UnknownProduct))
      && (Known(s) && retiring && !force && ArchivedYaml(s.service) in s.files ==> r == Err(ArchiveExists))
      && (Known(s) && !(retiring && !force && ArchivedYaml(s.service) in s.files) ==> r.Ok?)
  {
    KnownIff(s);
  }

  // ---- editing values ----

  lemma ReadableIff(s: Session, e: string)
    requires Ready(s) && s.schema.Some?
    ensures Document(s, e).Ok? <==> Identifier(e)
    ensures Document(s, e).Err? ==> Document(s, e) == Err(InvalidEnvironment)
    ensures Document(s, e).Ok? ==> Document(s, e).value == Held(s, s.files, e)
  {
    if Identifier(e) && s.Home(e) in s.files {
      ReadySchema(s);
      StoredDocument(s, e);
    }
  }

  /** The document already is what the edit would leave: nothing is written then. */
  ghost predicate AlreadySo(s: Session, e: string, next: Config) {
    s.Home(e) in s.files && ConfigOnly(Held(s, s.files, e)) == next
  }

  lemma RewrittenIff(s: Session, e: string, current: Config, next: Config, keys: Keys, touched: seq<string>)
    requires next.Keys !! METADATA
    ensures
      var r := Rewritten(s, e, current, next, keys, touched);
      && (r.Ok? <==> VersionOf(current) < MAX_SAFE_INTEGER && Storable(s.ctx.host, keys, next))
      && (VersionOf(current) >= MAX_SAFE_INTEGER ==> r == Err(VersionExhausted))
      && (r.Err? && VersionOf(current) < MAX_SAFE_INTEGER ==> r == Err(NotEncrypted))
  {
    var value := Versioned(next, VersionOf(current) + 1);
    assert "version" in METADATA && "sops" in METADATA;
    EncodeIff(s, e, value, VersionOf(current) + 1, keys);
    assert Storable(s.ctx.host, keys, value) <==> Storable(s.ctx.host, keys, next);
  }

  /** The checks of an edit before its document is written, in the order they are made. */
  ghost function EditRefusal(s: Session, e: string, changes: seq<Change>, expected: Expected, next: Config): Option<Refusal> {
    if Str(e) !in s.order then Some(Undeclared)
    else if expected.Some? && expected.value != EtagAt(s.files, ConfigYaml(s.service, e)) then Some(FileChanged)
    else if !Identifier(e) then Some(InvalidEnvironment)
    else if !Alterable(changes) then Some(MetadataEdited)
    else if !Accepts(s.ctx.host, s.Keys(), next) then Some(InvalidValues)
    else if AlreadySo(s, e, next) then None
    else if VersionOf(Held(s, s.files, e)) >= MAX_SAFE_INTEGER then Some(VersionExhausted)
    else if !Storable(s.ctx.host, s.Keys(), next) then Some(NotEncrypted)
    else None
  }

  lemma ValuesRefuse(s: Session, e: string, changes: seq<Change>, expected: Expected)
    ensures Str(e) !in s.order ==> Values(s, e, changes, expected) == Err(Undeclared)
    ensures Str(e) in s.order && expected.Some? && expected.value != EtagAt(s.files, s.Home(e)) ==>
              Values(s, e, changes, expected) == Err(FileChanged)
    ensures Str(e) in s.order && (expected.Some? ==> expected.value == EtagAt(s.files, s.Home(e))) && Document(s, e).Err? ==>
              Values(s, e, changes, expected) == Err(Document(s, e).error)
  {
  }

  lemma ValuesReadable(s: Session, e: string, changes: seq<Change>, expected: Expected, current: Config)
    requires Str(e) in s.order && (expected.Some? ==> expected.value == EtagAt(s.files, s.Home(e)))
    requires Document(s, e) == Ok(current) && s.schema.Some?
    ensures
      var r, next := Values(s, e, changes, expected), ApplyChanges(ConfigOnly(current), changes);
      && (next.Err? ==> r == Err(MetadataEdited))
      && (next.Ok? && !Accepts(s.ctx.host, s.Keys(), next.value) ==> r == Err(InvalidValues))
      && (next.Ok? && Accepts(s.ctx.host, s.Keys(), next.value) ==>
            r == if s.Home(e) in s.files && ConfigOnly(current) == next.value then Ok([])
                 else Rewritten(s, e, current, next.value, s.Keys(), TouchedKeys(changes, ConfigOnly(current), next.value)))
  {
  }

  lemma ValuesDecide(s: Session, e: string, changes: seq<Change>, expected: Expected, next: Config)
    requires Ready(s) && s.schema.Some?
    requires Alterable(changes) ==> Takes(ConfigOnly(Held(s, s.files, e)), changes, next)
    ensures
      var refusal := EditRefusal(s, e, changes, expected, next);
      && (refusal.Some? ==> Values(s, e, changes, expected) == Err(refusal.value))
      && (refusal.None? ==> Values(s, e, changes, expected).Ok?)
  {
    ReadableIff(s, e);
    ValuesRefuse(s, e, changes, expected);
    var current := Held(s, s.files, e);
    AlterableIff(ConfigOnly(current), changes);
    if Str(e) in s.order && (expected.Some? ==> expected.value == EtagAt(s.files, s.Home(e))) && Identifier(e) {
      ValuesReadable(s, e, changes, expected, current);
      if Alterable(changes) {
        NextIs(ConfigOnly(current), changes, next);
        RewrittenIff(s, e, current, next, s.Keys(), TouchedKeys(changes, ConfigOnly(current), next));
      }
    }
  }

  lemma NextIs(before: Config, changes: seq<Change>, next: Config)
    requires Alterable(changes) && Takes(before, changes, next) && before.Keys !! METADATA
    ensures ApplyChanges(before, changes) == Ok(next) && next.Keys !! METADATA
  {
    AlterableIff(before, changes);
    ChangesTake(before, changes);
    TakesIsUnique(before, changes, ApplyChanges(before, changes).value, next);
    ChangesKeepOut(before, changes);
  }

  /**
   * Writing values, decided: an unknown product or an undeclared environment is refused; then an edit
   * of a file that has moved on from the one the editor saw; then what the edit names and what the
   * document would hold; and only then what storing it takes.
   */
  lemma WriteDecides(s: Session, e: string, changes: seq<Change>, expected: Expected, next: Config)
    requires Ready(s)
    requires Alterable(changes) ==> Takes(ConfigOnly(Held(s, s.files, e)), changes, next)
    ensures
      var r := WriteValues(s, e, changes, expected);
      var refusal := if !Known(s) then Some(UnknownProduct) else EditRefusal(s, e, changes, expected, next);
      (refusal.Some? ==> r == Err(refusal.value)) && (refusal.None? ==> r.Ok?)
  {
    KnownIff(s);
    if Known(s) {
      ValuesDecide(s, e, changes, expected, next);
    }
  }

  // ---- promotion ----

  /** `from` is first mentioned at `i`, and `to` comes right after it. */
  ghost predicate ComesAt(order: seq<Yaml>, i: nat, from: string, to: string) {
    && i + 1 < |order| && order[i] == Str(from) && order[i + 1] == Str(to)
    && forall j :: 0 <= j < i ==> order[j] != Str(from)
  }

  /** `to` comes right after the first mention of `from` in the declared order. */
  ghost predicate ComesNext(order: seq<Yaml>, from: string, to: string) {
    exists i: nat :: ComesAt(order, i, from, to)
  }

  lemma {:induction false} FirstIndex(order: seq<Yaml>, v: Yaml)
    ensures IndexOf(order, v).None? ==> v !in order
    ensures IndexOf(order, v).Some? ==>
              var i := IndexOf(order, v).value;
              i < |order| && order[i] == v && forall j :: 0 <= j < i ==> order[j] != v
  {
    if order != [] && order[0] != v {
      FirstIndex(order[1..], v);
      assert order == [order[0]] + order[1..];
    }
  }

  lemma NextIff(order: seq<Yaml>, from: string, to: string)
    ensures IsNext(order, from, to) <==> ComesNext(order, from, to)
  {
    FirstIndex(order, Str(from));
    if IsNext(order, from, to) {
      assert ComesAt(order, IndexOf(order, Str(from)).value, from, to);
    }
    if i: nat :| ComesAt(order, i, from, to) {
      assert order[i] in order;
      assert IndexOf(order, Str(from)).value == i;
    }
  }

  /** What of a promotion's request is wrong before the target is looked at. */
  ghost function PromotionRefusal(s: Session, from: string, to: string, keys: seq<string>): Option<Refusal> {
    if !Known(s) then Some(UnknownProduct)
    else if !ComesNext(s.order, from, to) then Some(NotNext)
    else if keys == [] then Some(NothingSelected)
    else if exists k :: k in keys && k !in s.Keys() then Some(UnknownKey)
    else if exists k :: k in keys && k in s.Keys() && s.Keys()[k].secret then Some(SecretPromoted)
    else if !Identifier(from) then Some(InvalidEnvironment)
    else if exists k :: k in keys && k !in Held(s, s.files, from) then Some(NotSet)
    else if !Identifier(to) then Some(InvalidEnvironment)
    else if exists k :: k in keys && IsMetadata(k) then Some(MetadataEdited)
    else None
  }

  lemma SelectIff(s: Session, keys: seq<string>)
    ensures
      var r := Select(s, keys);
      && (keys == [] ==> r == Err(NothingSelected))
      && (keys != [] && (exists k :: k in keys && k !in s.Keys()) ==> r == Err(UnknownKey))
      && (keys != [] && (forall k :: k in keys ==> k in s.Keys()) ==> r.Ok? && forall k :: k in r.value <==> k in keys)
  {
    assert keys != [] ==> keys[0] in Dedupe(keys);
  }

  lemma CopiedAlterable(keys: seq<string>, source: Config)
    requires forall k :: k in keys ==> k in source
    ensures Alterable(Copied(keys, source)) <==> forall k :: k in keys ==> !IsMetadata(k)
  {
    var changes := Copied(keys, source);
    forall i | 0 <= i < |changes| ensures changes[i].key == keys[i] && changes[i].value.Some? {
      assert keys[i] in keys;
    }
    forall k | k in keys ensures exists i :: 0 <= i < |changes| && changes[i].key == k {
      var i :| 0 <= i < |keys| && keys[i] == k;
      assert changes[i].key == k;
    }
  }

  /** What is left to refuse a promotion for once nothing is wrong with its request: the target's file. */
  ghost predicate PromotionDecided(s: Session, from: string, to: string, keys: seq<string>, r: Result<Plan, Refusal>) {
    var refusal := PromotionRefusal(s, from, to, keys);
    && (refusal.Some? ==> r == Err(refusal.value))
    && (refusal.None? ==> Stepped(s, to, ConfigOnly(Held(s, s.files, to)) + Picked(keys, Held(s, s.files, from)), r))
  }

  /** Storing `next` is refused for the counter, or for a secret that would be in the clear. */
  ghost predicate Stepped<T>(s: Session, e: string, next: Config, r: Result<T, Refusal>) {
    if AlreadySo(s, e, next) then r.Ok?
    else if VersionOf(Held(s, s.files, e)) >= MAX_SAFE_INTEGER then r == Err(VersionExhausted)
    else if !Storable(s.ctx.host, s.Keys(), next) then r == Err(NotEncrypted)
    else r.Ok?
  }

  /**
   * Promotion, decided. Past what is wrong with the request it fails for its target's file alone:
   * what is valid in one environment is valid in the next.
   */
  lemma PromoteDecides(s: Session, from: string, to: string, keys: seq<string>)
    requires Ready(s)
    ensures PromotionDecided(s, from, to, keys, Promote(s, from, to, keys))
  {
    KnownIff(s);
    NextIff(s.order, from, to);
    if Known(s) && ComesNext(s.order, from, to) {
      SelectIff(s, keys);
      if Select(s, keys).Ok? {
        PromoteSelected(s, from, to, keys, Select(s, keys).value);
      }
    }
  }

  lemma NextIsDeclared(order: seq<Yaml>, from: string, to: string)
    requires ComesNext(order, from, to)
    ensures Str(to) in order
  {
  }

  lemma PromoteRefuses(s: Session, from: string, to: string, keys: seq<string>, selected: seq<string>)
    requires RequireProduct(s).Ok? && IsNext(s.order, from, to) && Select(s, keys) == Ok(selected)
    ensures
      var r := Promote(s, from, to, keys);
      && ((exists k :: k in selected && s.IsSecret(k)) ==> r == Err(SecretPromoted))
      && ((forall k :: k in selected ==> !s.IsSecret(k)) ==>
            && (Document(s, from).Err? ==> r == Err(Document(s, from).error))
            && (Document(s, from).Ok? ==>
                  var source := Document(s, from).value;
                  && ((exists k :: k in selected && k !in source) ==> r == Err(NotSet))
                  && ((forall k :: k in selected ==> k in source) ==>
                        var writes := Values(s, to, Copied(selected, source), None);
                        (writes.Err? ==> r == Err(writes.error)) && (writes.Ok? ==> r.Ok?))))
  {
  }

  lemma PromoteSelected(s: Session, from: string, to: string, keys: seq<string>, selected: seq<string>)
    requires Ready(s) && Known(s) && ComesNext(s.order, from, to) && s.schema.Some?
    requires IsNext(s.order, from, to) && RequireProduct(s).Ok? && Select(s, keys) == Ok(selected)
    requires keys != [] && (forall k :: k in selected <==> k in keys) && forall k :: k in keys ==> k in s.Keys()
    ensures PromotionDecided(s, from, to, keys, Promote(s, from, to, keys))
  {
    var r := Promote(s, from, to, keys);
    PromoteRefuses(s, from, to, keys, selected);
    ReadableIff(s, from);
    if k :| k in keys && s.Keys()[k].secret {
      assert s.IsSecret(k) && k in selected;
      RefusalHere(s, from, to, keys);
    } else if !Identifier(from) {
      RefusalHere(s, from, to, keys);
    } else if k :| k in keys && k !in Held(s, s.files, from) {
      assert k in selected;
      RefusalHere(s, from, to, keys);
    } else {
      var source := Held(s, s.files, from);
      StoredOrEmpty(s, from);
      NextIsDeclared(s.order, from, to);
      CopyDecides(s, to, keys, selected, source);
      RefusalPast(s, from, to, keys);
      PromoteFolds(s, from, to, keys, Values(s, to, Copied(selected, source), None), r);
    }
  }

  lemma RefusalHere(s: Session, from: string, to: string, keys: seq<string>)
    requires Known(s) && ComesNext(s.order, from, to) && keys != [] && forall k :: k in keys ==> k in s.Keys()
    ensures
      var secret, unset := exists k :: k in keys && s.Keys()[k].secret, exists k :: k in keys && k !in Held(s, s.files, from);
      && (secret ==> PromotionRefusal(s, from, to, keys) == Some(SecretPromoted))
      && (!secret && !Identifier(from) ==> PromotionRefusal(s, from, to, keys) == Some(InvalidEnvironment))
      && (!secret && Identifier(from) && unset ==> PromotionRefusal(s, from, to, keys) == Some(NotSet))
  {
  }

  lemma RefusalPast(s: Session, from: string, to: string, keys: seq<string>)
    requires Known(s) && ComesNext(s.order, from, to) && Identifier(from) && keys != []
    requires forall k :: k in keys ==> k in s.Keys() && !s.Keys()[k].secret && k in Held(s, s.files, from)
    ensures PromotionRefusal(s, from, to, keys)
            == if !Identifier(to) then Some(InvalidEnvironment)
               else if exists k :: k in keys && IsMetadata(k) then Some(MetadataEdited)
               else None
  {
  }

  lemma PromoteFolds(s: Session, from: string, to: string, keys: seq<string>,
                     writes: Result<seq<Write>, Refusal>, r: Result<Plan, Refusal>)
    requires (writes.Err? ==> r == Err(writes.error)) && (writes.Ok? ==> r.Ok?)
    requires PromotionRefusal(s, from, to, keys)
             == if !Identifier(to) then Some(InvalidEnvironment)
                else if exists k :: k in keys && IsMetadata(k) then Some(MetadataEdited)
                else None
    requires !Identifier(to) ==> writes == Err(InvalidEnvironment)
    requires Identifier(to) && (exists k :: k in keys && IsMetadata(k)) ==> writes == Err(MetadataEdited)
    requires Identifier(to) && (forall k :: k in keys ==> !IsMetadata(k)) ==>
               Stepped(s, to, ConfigOnly(Held(s, s.files, to)) + Picked(keys, Held(s, s.files, from)), writes)
    ensures PromotionDecided(s, from, to, keys, r)
  {
  }

  lemma CopyDecides(s: Session, to: string, keys: seq<string>, selected: seq<string>, source: Config)
    requires Ready(s) && s.schema.Some? && Str(to) in s.order && Accepts(s.ctx.host, s.Keys(), ConfigOnly(source))
    requires (forall k :: k in selected <==> k in keys) && forall k :: k in keys ==> k in source
    ensures
      var r := Values(s, to, Copied(selected, source), None);
      && (!Identifier(to) ==> r == Err(InvalidEnvironment))
      && (Identifier(to) && (exists k :: k in keys && IsMetadata(k)) ==> r == Err(MetadataEdited))
      && (Identifier(to) && (forall k :: k in keys ==> !IsMetadata(k)) ==>
            Stepped(s, to, ConfigOnly(Held(s, s.files, to)) + Picked(keys, source), r))
  {
    var before := ConfigOnly(Held(s, s.files, to));
    var changes := Copied(selected, source);
    CopiedAlterable(selected, source);
    assert Picked(selected, source) == Picked(keys, source);
    var next := before + Picked(keys, source);
    if Alterable(changes) {
      CopiedTakes(before, selected, source);
    }
    ValuesDecide(s, to, changes, None, next);
    if Identifier(to) && Alterable(changes) {
      ReadableIff(s, to);
      StoredOrEmpty(s, to);
      PickedAccepted(s.ctx.host, s.Keys(), source, selected);
      AcceptsMerged(s.ctx.host, s.Keys(), before, Picked(keys, source));
    }
  }

  lemma CopiedTakes(before: Config, keys: seq<string>, source: Config)
    requires (forall k :: k in keys ==> k in source) && Alterable(Copied(keys, source))
    ensures Takes(before, Copied(keys, source), before + Picked(keys, source))
  {
    CopiedApplies(before, keys, source);
    AlterableIff(before, Copied(keys, source));
    ChangesTake(before, Copied(keys, source));
  }
}
