/** `ProductMutation` and the operations driving it, step by step: writes pushed, reads recorded, then committed. */
module ProductMutations {
  import opened Wrappers
  import opened Documents
  import opened Text
  import Storage
  import opened Requests
  import opened Schemas
  import opened Builder
  import opened Registry
  import opened Products

  /** The names of a directory, sorted as the file system lists them. */
  method ListNames(names: set<string>) returns (r: seq<string>)
    ensures r == Listed(names)
  {
    r := [];
    var rest := names;
    while rest != {}
      invariant rest <= names && Ascending(r)
      invariant forall x :: x in r <==> x in names && x !in rest
    {
      var x :| x in rest;
      r := Insert(x, r);
      rest := rest - {x};
    }
    AscendingIsUnique(r, Listed(names));
  }

  lemma MutationsConcat(files: Files, actor: string, a: seq<Write>, b: seq<Write>)
    ensures MutationsOf(files, actor, a + b) == MutationsOf(files, actor, a) + MutationsOf(files, actor, b)
  {
  }

  lemma MutationsAfter(files: Files, actor: string, before: seq<Mutation>, a: seq<Write>, b: seq<Write>)
    ensures before + MutationsOf(files, actor, a) + MutationsOf(files, actor, b) == before + MutationsOf(files, actor, a + b)
  {
    MutationsConcat(files, actor, a, b);
  }

  /** A result with more writes in front of it. */
  function After(done: seq<Write>, r: Result<seq<Write>, Refusal>): Result<seq<Write>, Refusal> {
    if r.Ok? then Ok(done + r.value) else r
  }

  lemma AfterNothing(r: Result<seq<Write>, Refusal>)
    ensures After([], r) == r
  {
    if r.Ok? {
      assert [] + r.value == r.value;
    }
  }

  lemma AfterBoth(a: seq<Write>, b: seq<Write>, c: seq<Write>)
    ensures (a + b) + c == a + (b + c)
  {
  }

  /** A null entry before the answer has no fields to look at. */
  method FindEntry(entries: seq<Yaml>, key: string, value: Yaml) returns (r: Result<Option<Yaml>, Refusal>)
    ensures r == Find(entries, key, value)
  {
    for i := 0 to |entries|
      invariant Find(entries, key, value) == Find(entries[i..], key, value)
    {
      if entries[i].Null? {
        return Err(Unreadable);
      }
      if HasField(entries[i], key, value) {
        return Ok(Some(entries[i]));
      }
      assert entries[i..][1..] == entries[i + 1..];
    }
    return Ok(None);
  }

  /** The values an addition writes: drafts that are secret, or have no default, bring none. */
  method CollectDefaults(drafts: seq<KeyDraft>) returns (defaults: Config)
    ensures defaults == DraftDefaults(drafts)
  {
    defaults := map[];
    for i := 0 to |drafts|
      invariant defaults == DraftDefaults(drafts[..i])
    {
      assert drafts[..i + 1][..i] == drafts[..i];
      if drafts[i].secret || Given(drafts[i]).None? {
        continue;
      }
      defaults := defaults[NameOf(drafts[i]) := Given(drafts[i]).value];
    }
    assert drafts[..|drafts|] == drafts;
  }

  lemma EncodeFirst(s: Session, envs: seq<string>, value: Config, keys: Keys, touched: seq<string>, done: seq<Write>)
    requires envs != []
    ensures
      After(done, EncodeAll(s, envs, value, keys, touched))
      == match EncodeAll(s, [envs[0]], value, keys, touched)
         case Ok(one) => After(done + one, EncodeAll(s, envs[1..], value, keys, touched))
         case Err(e) => Err(e)
  {
    var first := Encode(s, envs[0], value, keys);
    var rest := EncodeAll(s, envs[1..], value, keys, touched);
    if first.Ok? && rest.Ok? {
      var one := [Write(s.Home(envs[0]), Some(first.value), touched)];
      assert one + [] == one;
      AfterBoth(done, one, rest.value);
    }
  }

  /** One more environment, after those before it went through. */
  lemma {:induction false} RewriteNext(s: Session, keys: Keys, edit: Edit, touched: seq<string>, envs: seq<string>, i: nat)
    requires i < |envs| && RewriteAll(s, keys, edit, touched, envs[..i]).Ok?
    ensures Rewrite(s, keys, edit, touched, envs[i]).Ok? ==>
              RewriteAll(s, keys, edit, touched, envs[..i + 1])
              == Ok(RewriteAll(s, keys, edit, touched, envs[..i]).value + Rewrite(s, keys, edit, touched, envs[i]).value)
    ensures Rewrite(s, keys, edit, touched, envs[i]).Err? ==>
              RewriteAll(s, keys, edit, touched, envs) == Rewrite(s, keys, edit, touched, envs[i])
    decreases i
  {
    if i > 0 {
      assert envs[..i][0] == envs[0] && envs[..i][1..] == envs[1..][..i - 1];
      assert envs[..i + 1][0] == envs[0] && envs[..i + 1][1..] == envs[1..][..i];
      RewriteNext(s, keys, edit, touched, envs[1..], i - 1);
      var first := Rewrite(s, keys, edit, touched, envs[0]);
      var rest := RewriteAll(s, keys, edit, touched, envs[1..][..i - 1]);
      if Rewrite(s, keys, edit, touched, envs[i]).Ok? {
        AfterBoth(first.value, rest.value, Rewrite(s, keys, edit, touched, envs[i]).value);
      }
    } else {
      assert envs[..1][0] == envs[0] && envs[..1][1..] == [];
      var first := Rewrite(s, keys, edit, touched, envs[0]);
      if first.Ok? {
        assert first.value + [] == first.value && [] + first.value == first.value;
      }
    }
  }

  lemma {:induction false} ReadsNext(start: seq<Path>, s: Session, envs: seq<string>, i: nat)
    requires i < |envs|
    ensures AddReads(start, s, envs[..i + 1]) == AddRead(AddReads(start, s, envs[..i]), s.Home(envs[i]))
    decreases i
  {
    if i > 0 {
      assert envs[..i][0] == envs[0] && envs[..i][1..] == envs[1..][..i - 1];
      assert envs[..i + 1][0] == envs[0] && envs[..i + 1][1..] == envs[1..][..i];
      ReadsNext(AddRead(start, s.Home(envs[0])), s, envs[1..], i - 1);
    } else {
      assert envs[..1][0] == envs[0] && envs[..1][1..] == [];
    }
  }

  lemma DifferingFirst(changes: seq<Change>, before: Config, after: Config, i: nat, keys: seq<string>)
    requires i < |changes|
    ensures
      var one := if At(before, changes[i].key) != At(after, changes[i].key) then [changes[i].key] else [];
      keys + Differing(changes[i..], before, after) == (keys + one) + Differing(changes[i + 1..], before, after)
  {
    assert changes[i..][0] == changes[i] && changes[i..][1..] == changes[i + 1..];
  }

  lemma DifferingDone(changes: seq<Change>, before: Config, after: Config, keys: seq<string>)
    requires keys + Differing(changes[|changes|..], before, after) == Differing(changes, before, after)
    ensures keys == Differing(changes, before, after)
  {
    assert changes[|changes|..] == [] && keys + [] == keys;
  }

  /** Defaults may hold neither metadata nor secrets. */
  method AllSafe(keys: Keys, config: Config) returns (safe: bool)
    ensures safe <==> forall k :: k in config ==> !Unsafe(keys, k)
  {
    var rest := config.Keys;
    while rest != {}
      invariant rest <= config.Keys
      invariant forall k :: k in config && k !in rest ==> !Unsafe(keys, k)
    {
      var key :| key in rest;
      if Unsafe(keys, key) {
        return false;
      }
      rest := rest - {key};
    }
    return true;
  }

  method Undeclare(declared: Config, keys: seq<string>) returns (left: Config)
    ensures left == declared - (set k | k in keys)
  {
    left := declared;
    for i := 0 to |keys|
      invariant left == declared - (set k | k in keys[..i])
    {
      left := left - {keys[i]};
    }
    assert keys[..|keys|] == keys;
  }

  /** The source's values under the selected keys, all of which it must hold. */
  method CopyValues(keys: seq<string>, source: Config) returns (changes: Option<seq<Change>>)
    ensures changes.Some? <==> forall k :: k in keys ==> k in source
    ensures changes.Some? ==> changes.value == Copied(keys, source)
  {
    var copied: seq<Change> := [];
    for i := 0 to |keys|
      invariant forall j :: 0 <= j < i ==> keys[j] in source
      invariant copied == Copied(keys[..i], source)
    {
      if keys[i] !in source {
        return None;
      }
      copied := copied + [Change(keys[i], Some(source[keys[i]]))];
    }
    assert keys[..|keys|] == keys;
    return Some(copied);
  }

  class ProductMutation {
    const s: Session
    var writes: seq<Mutation>
    var consulted: seq<Path>

    constructor (s: Session)
      ensures this.s == s && writes == [] && consulted == BaseReads(s.service)
    {
      this.s := s;
      writes := [];
      consulted := BaseReads(s.service);
    }

    /** The mutations these writes become. */
    function Pushed(ws: seq<Write>): seq<Mutation> {
      MutationsOf(s.files, s.ctx.actor, ws)
    }

    method Put(path: Path, content: Option<Content>, keys: seq<string>)
      modifies this`writes
      ensures writes == old(writes) + Pushed([Write(path, content, keys)])
    {
      writes := writes + [Mutation(path, content, Exactly(EtagAt(s.files, path)), Storage.Attribution(s.ctx.actor, keys), true)];
    }

    method ReadDocument(environment: string) returns (r: Result<Config, Refusal>)
      modifies this`consulted
      ensures r == Document(s, environment)
      ensures consulted == if Identifier(environment) then AddRead(old(consulted), s.Home(environment)) else old(consulted)
    {
      if !Identifier(environment) {
        return Err(InvalidEnvironment);
      }
      var path := s.Home(environment);
      consulted := AddRead(consulted, path);
      if path !in s.files {
        return Ok(map[]);
      }
      var doc := Resolve(s.ctx.host, s.files[path]);
      if doc.None? {
        return Err(Unreadable);
      }
      return Ok(doc.value);
    }

    /** Encrypted, and refused if any filled secret is not. */
    method EncodeDocument(environment: string, value: Config, keys: Keys) returns (r: Result<Content, Refusal>)
      ensures r == Encode(s, environment, value, keys)
    {
      if !("version" in value && value["version"].Num? && IsSafeInteger(value["version"].n)) {
        return Err(VersionExhausted);
      }
      var encrypted := Encrypt(s.ctx.host, value, s.ctx.nonce(environment));
      var rest := value.Keys;
      while rest != {}
        invariant rest <= value.Keys
        invariant forall k :: k in value && k !in rest && k !in METADATA && k in keys && keys[k].secret ==>
                    k in encrypted && SecretHidden(value[k], encrypted[k])
      {
        var key :| key in rest;
        rest := rest - {key};
        if key in METADATA || key !in keys || !keys[key].secret {
          continue;
        }
        if !SecretHidden(value[key], encrypted[key]) {
          return Err(NotEncrypted);
        }
      }
      return Ok(Stringify(Map(encrypted)));
    }

    /** The keys whose values the edit changes, or all it names if it changes none. */
    method ChangedKeys(changes: seq<Change>, before: Config, after: Config) returns (keys: seq<string>)
      ensures keys == TouchedKeys(changes, before, after)
    {
      keys := [];
      for i := 0 to |changes|
        invariant keys + Differing(changes[i..], before, after) == Differing(changes, before, after)
      {
        DifferingFirst(changes, before, after, i, keys);
        if At(before, changes[i].key) != At(after, changes[i].key) {
          keys := keys + [changes[i].key];
        }
      }
      DifferingDone(changes, before, after, keys);
      if keys == [] {
        keys := KeysOf(changes);
      }
    }

    method Alter(config: Config, changes: seq<Change>) returns (r: Result<Config, Refusal>)
      ensures r == ApplyChanges(config, changes)
    {
      var next := config;
      for i := 0 to |changes|
        invariant ApplyChanges(next, changes[i..]) == ApplyChanges(config, changes)
      {
        if changes[i].key in METADATA || changes[i].value.None? {
          return Err(MetadataEdited);
        }
        assert changes[i..][1..] == changes[i + 1..];
        next := next[changes[i].key := changes[i].value.value];
      }
      return Ok(next);
    }

    method PushRewritten(environment: string, current: Config, next: Config, keys: Keys, touched: seq<string>)
      returns (failure: Option<Refusal>)
      modifies this`writes
      ensures
        match Rewritten(s, environment, current, next, keys, touched)
        case Ok(ws) => failure == None && writes == old(writes) + Pushed(ws)
        case Err(e) => failure == Some(e)
    {
      var content := EncodeDocument(environment, Versioned(next, VersionOf(current) + 1), keys);
      if content.Err? {
        return Some(content.error);
      }
      Put(s.Home(environment), Some(content.value), touched);
      return None;
    }

    /** `values`: one environment's document, changed, validated and rewritten. */
    method SetValues(environment: string, changes: seq<Change>, expected: Expected) returns (failure: Option<Refusal>)
      modifies this
      ensures
        match Values(s, environment, changes, expected)
        case Ok(ws) => failure == None && writes == old(writes) + Pushed(ws)
                       && consulted == AddRead(old(consulted), s.Home(environment))
        case Err(e) => failure == Some(e)
    {
      if Str(environment) !in s.order {
        return Some(Undeclared);
      }
      var path := s.Home(environment);
      if expected.Some? && expected.value != EtagAt(s.files, path) {
        return Some(FileChanged);
      }
      var current := ReadDocument(environment);
      if current.Err? {
        return Some(current.error);
      }
      var before := StripMetadata(current.value);
      var next := Alter(before, changes);
      if next.Err? {
        return Some(next.error);
      }
      var errors := Validate(s.ctx.host, s.Keys(), next.value);
      if s.schema.None? || errors != [] {
        return Some(InvalidValues);
      }
      if path in s.files && before == next.value {
        assert Pushed([]) == [];
        return None;
      }
      var touched := ChangedKeys(changes, before, next.value);
      failure := PushRewritten(environment, current.value, next.value, s.Keys(), touched);
    }

    /** One environment's share of a change to the schema. */
    method EditOne(keys: Keys, edit: Edit, touched: seq<string>, environment: string) returns (failure: Option<Refusal>)
      modifies this
      ensures
        match Rewrite(s, keys, edit, touched, environment)
        case Ok(ws) => failure == None && writes == old(writes) + Pushed(ws)
                       && consulted == AddRead(old(consulted), s.Home(environment))
        case Err(e) => failure == Some(e)
    {
      var current := ReadDocument(environment);
      if current.Err? {
        return Some(current.error);
      }
      if !EditCurrent(edit, s, environment) {
        return Some(FileChanged);
      }
      var before := StripMetadata(current.value);
      var next := Edited(edit, environment, before);
      var errors := Validate(s.ctx.host, keys, next);
      if errors != [] {
        return Some(if edit.Drop? then Orphans else InvalidValues);
      }
      if before == next {
        assert Pushed([]) == [];
        return None;
      }
      failure := PushRewritten(environment, current.value, next, keys, touched);
    }

    /** Every stored environment, in order; the first refusal ends it. */
    method EditAll(keys: Keys, edit: Edit, touched: seq<string>, envs: seq<string>) returns (failure: Option<Refusal>)
      modifies this
      ensures
        match RewriteAll(s, keys, edit, touched, envs)
        case Ok(ws) => failure == None && writes == old(writes) + Pushed(ws)
                       && consulted == AddReads(old(consulted), s, envs)
        case Err(e) => failure == Some(e)
    {
      ghost var pushed, began := writes, consulted;
      assert envs[..0] == [] && Pushed([]) == [];
      for i := 0 to |envs|
        invariant RewriteAll(s, keys, edit, touched, envs[..i]).Ok?
        invariant writes == pushed + Pushed(RewriteAll(s, keys, edit, touched, envs[..i]).value)
        invariant consulted == AddReads(began, s, envs[..i])
      {
        RewriteNext(s, keys, edit, touched, envs, i);
        ReadsNext(began, s, envs, i);
        failure := EditOne(keys, edit, touched, envs[i]);
        if failure.Some? {
          return;
        }
        MutationsAfter(s.files, s.ctx.actor, pushed, RewriteAll(s, keys, edit, touched, envs[..i]).value,
                       Rewrite(s, keys, edit, touched, envs[i]).value);
      }
      assert envs[..|envs|] == envs;
      failure := None;
    }

    /** Environments first, then the schema they now answer to. */
    method EditThenSchema(keys: Keys, edit: Edit, touched: seq<string>, source: Content) returns (failure: Option<Refusal>)
      modifies this
      ensures
        match RewriteAll(s, keys, edit, touched, Listed(s.Environments()))
        case Ok(ws) => failure == None
                       && writes == old(writes) + Pushed(ws + [Write(SchemaYaml(s.service), Some(source), touched)])
                       && consulted == AddReads(old(consulted), s, Listed(s.Environments()))
        case Err(e) => failure == Some(e)
    {
      var envs := ListNames(s.Environments());
      failure := EditAll(keys, edit, touched, envs);
      if failure.Some? {
        return;
      }
      Put(SchemaYaml(s.service), Some(source), touched);
      MutationsConcat(s.files, s.ctx.actor, RewriteAll(s, keys, edit, touched, envs).value,
                      [Write(SchemaYaml(s.service), Some(source), touched)]);
    }

    method PushEncoded(environment: string, value: Config, keys: Keys, touched: seq<string>) returns (failure: Option<Refusal>)
      modifies this`writes
      ensures
        match EncodeAll(s, [environment], value, keys, touched)
        case Ok(ws) => failure == None && writes == old(writes) + Pushed(ws)
        case Err(e) => failure == Some(e)
    {
      var content := EncodeDocument(environment, value, keys);
      if content.Err? {
        return Some(content.error);
      }
      Put(s.Home(environment), Some(content.value), touched);
      assert [Write(s.Home(environment), Some(content.value), touched)] + [] == [Write(s.Home(environment), Some(content.value), touched)];
      return None;
    }

    method EncodeEvery(envs: seq<string>, value: Config, keys: Keys, touched: seq<string>) returns (failure: Option<Refusal>)
      modifies this`writes
      ensures
        match EncodeAll(s, envs, value, keys, touched)
        case Ok(ws) => failure == None && writes == old(writes) + Pushed(ws)
        case Err(e) => failure == Some(e)
    {
      ghost var done: seq<Write> := [];
      assert Pushed(done) == [] && envs[0..] == envs;
      AfterNothing(EncodeAll(s, envs, value, keys, touched));
      for i := 0 to |envs|
        invariant EncodeAll(s, envs, value, keys, touched) == After(done, EncodeAll(s, envs[i..], value, keys, touched))
        invariant writes == old(writes) + Pushed(done)
      {
        EncodeFirst(s, envs[i..], value, keys, touched, done);
        assert envs[i..][1..] == envs[i + 1..];
        failure := PushEncoded(envs[i], value, keys, touched);
        if failure.Some? {
          return;
        }
        ghost var one := EncodeAll(s, [envs[i]], value, keys, touched).value;
        MutationsAfter(s.files, s.ctx.actor, old(writes), done, one);
        done := done + one;
      }
      assert done + [] == done;
      failure := None;
    }

    // ---- the operations ----

    /** The session asks for exactly what the plan says, or the operation was refused. */
    ghost predicate Did(planned: Result<Plan, Refusal>, failure: Option<Refusal>)
      reads this
    {
      match planned
      case Ok(plan) => failure == None && writes == Pushed(plan.writes) && consulted == plan.consulted
      case Err(e) => failure == Some(e)
    }

    predicate Fresh()
      reads this
    {
      writes == [] && consulted == BaseReads(s.service)
    }

    method CreateProduct(uid: Number, envs: seq<string>, schema: Content, defaults: seq<Field>)
      returns (failure: Option<Refusal>)
      requires Fresh()
      modifies this
      ensures Did(Create(s, uid, envs, schema, defaults), failure)
    {
      var entries := MayCreate(s, uid, envs);
      if entries.Err? {
        return Some(entries.error);
      }
      var product := ParseSchema(s.ctx.host, schema);
      if product.None? {
        return Some(Unreadable);
      }
      var keys, config := product.value.keys, ToConfig(defaults);
      var errors := Validate(s.ctx.host, keys, config);
      if errors != [] {
        return Some(InvalidDefaults);
      }
      var safe := AllSafe(keys, config);
      if !safe {
        return Some(UnsafeDefaults);
      }
      var registry := WithEntries(s.registry, entries.value + [Entry(s.service, uid, envs)]);
      failure := PushCreation(envs, schema, Versioned(config, 1), keys, FieldKeys(defaults), registry);
    }

    /** The schema first, the registry last. */
    method PushCreation(envs: seq<string>, schema: Content, value: Config, keys: Keys, touched: seq<string>, registry: Yaml)
      returns (failure: Option<Refusal>)
      modifies this`writes
      ensures
        match EncodeAll(s, envs, value, keys, touched)
        case Ok(values) =>
          failure == None
          && writes == old(writes) + Pushed([Write(SchemaYaml(s.service), Some(schema), [s.service])] + values
                                            + [Write(SERVICES_YAML, Some(Stringify(registry)), [s.service])])
        case Err(e) => failure == Some(e)
    {
      Put(SchemaYaml(s.service), Some(schema), [s.service]);
      failure := EncodeEvery(envs, value, keys, touched);
      if failure.Some? {
        return;
      }
      Put(SERVICES_YAML, Some(Stringify(registry)), [s.service]);
      ghost var first := [Write(SchemaYaml(s.service), Some(schema), [s.service])];
      ghost var values := EncodeAll(s, envs, value, keys, touched).value;
      MutationsConcat(s.files, s.ctx.actor, first, values);
      MutationsConcat(s.files, s.ctx.actor, first + values, [Write(SERVICES_YAML, Some(Stringify(registry)), [s.service])]);
    }

    method RequireIdentity() returns (r: Result<Yaml, Refusal>)
      ensures r == RequireProduct(s)
    {
      var entries := Entries(s.registry);
      if entries.Err? {
        return Err(entries.error);
      }
      var identity := FindEntry(entries.value, "name", Str(s.service));
      if identity.Err? {
        return Err(identity.error);
      }
      if identity.value.None? || s.schema.None? {
        return Err(UnknownProduct);
      }
      return Ok(identity.value.value);
    }

    method WriteProductValues(environment: string, changes: seq<Change>, expected: Expected) returns (failure: Option<Refusal>)
      requires Fresh()
      modifies this
      ensures Did(WriteValues(s, environment, changes, expected), failure)
    {
      var identity := RequireIdentity();
      if identity.Err? {
        return Some(identity.error);
      }
      failure := SetValues(environment, changes, expected);
    }

    method MarkRetiring(retiring: bool, force: bool) returns (failure: Option<Refusal>)
      requires Fresh()
      modifies this
      ensures Did(SetRetiring(s, retiring, force), failure)
    {
      var identity := RequireIdentity();
      if identity.Err? {
        return Some(identity.error);
      }
      if retiring && !force && ArchivedYaml(s.service) in s.files {
        return Some(ArchiveExists);
      }
      var fields := SchemaFields(s);
      if fields.Err? {
        return Some(fields.error);
      }
      var document := fields.value;
      if retiring {
        document := document["retiring" := Bool(true)];
      } else {
        document := document - {"retiring"};
      }
      Put(SchemaYaml(s.service), Some(Stringify(Map(document))), ["retiring"]);
      return None;
    }

    method AnySecret(keys: seq<string>) returns (found: bool)
      ensures found <==> exists k :: k in keys && s.IsSecret(k)
    {
      for i := 0 to |keys|
        invariant forall j :: 0 <= j < i ==> !s.IsSecret(keys[j])
      {
        if s.IsSecret(keys[i]) {
          return true;
        }
      }
      return false;
    }

    method PromoteValues(from: string, to: string, keys: seq<string>) returns (failure: Option<Refusal>)
      requires Fresh()
      modifies this
      ensures Did(Promote(s, from, to, keys), failure)
    {
      var identity := RequireIdentity();
      if identity.Err? {
        return Some(identity.error);
      }
      if !IsNext(s.order, from, to) {
        return Some(NotNext);
      }
      var selected := Select(s, keys);
      if selected.Err? {
        return Some(selected.error);
      }
      var secret := AnySecret(selected.value);
      if secret {
        return Some(SecretPromoted);
      }
      var source := ReadDocument(from);
      if source.Err? {
        return Some(source.error);
      }
      var changes := CopyValues(selected.value, source.value);
      if changes.None? {
        return Some(NotSet);
      }
      failure := SetValues(to, changes.value, None);
    }

    method GrowSchema(drafts: seq<KeyDraft>) returns (r: Result<Grown, Refusal>)
      ensures r == Grow(s, drafts)
    {
      var built := BuildSchema(s.ctx.host, drafts);
      if built.Err? {
        return Err(InvalidDrafts);
      }
      var added := RawKeys(built.value.tree).value;
      var fields := SchemaFields(s);
      if fields.Err? {
        return Err(fields.error);
      }
      var declared := DeclaredKeys(fields.value);
      if !(added.Keys !! declared.Keys) {
        return Err(AlreadyDeclared);
      }
      var nextSource := Stringify(Map(fields.value["keys" := Map(declared + added)]));
      var candidate := ParseSchema(s.ctx.host, nextSource);
      if candidate.None? {
        return Err(Unreadable);
      }
      return Ok(Grown(nextSource, candidate.value.keys));
    }

    method AddProductKeys(environment: string, drafts: seq<KeyDraft>, expected: Expected) returns (failure: Option<Refusal>)
      requires Fresh()
      modifies this
      ensures Did(AddKeys(s, environment, drafts, expected), failure)
    {
      var identity := RequireIdentity();
      if identity.Err? {
        return Some(identity.error);
      }
      if s.order == [] || s.order[0] != Str(environment) {
        return Some(NotLowest);
      }
      if drafts == [] {
        return Some(NothingAdded);
      }
      var grown := GrowSchema(drafts);
      if grown.Err? {
        return Some(grown.error);
      }
      var defaults := CollectDefaults(drafts);
      if s.Home(environment) !in s.files {
        return Some(NoFile);
      }
      failure := EditThenSchema(grown.value.keys, Lay(environment, defaults, expected), NamesOf(drafts), grown.value.source);
    }

    method DeleteProductKeys(selected: seq<string>, expectedBase: Option<Files>) returns (failure: Option<Refusal>)
      requires Fresh()
      modifies this
      ensures Did(DeleteKeys(s, selected, expectedBase), failure)
    {
      if !BaseMatches(expectedBase, s) {
        return Some(ProductChanged);
      }
      var identity := RequireIdentity();
      if identity.Err? {
        return Some(identity.error);
      }
      var keys := Select(s, selected);
      if keys.Err? {
        return Some(keys.error);
      }
      var fields := SchemaFields(s);
      if fields.Err? {
        return Some(fields.error);
      }
      var declared := DeclaredKeys(fields.value);
      declared := Undeclare(declared, keys.value);
      var nextSource := Stringify(Map(fields.value["keys" := Map(declared)]));
      var candidate := ParseSchema(s.ctx.host, nextSource);
      if candidate.None? {
        return Some(Unreadable);
      }
      failure := EditThenSchema(candidate.value.keys, Drop(keys.value), keys.value, nextSource);
    }

    method PushDeletions(envs: seq<string>)
      modifies this`writes
      ensures writes == old(writes) + Pushed(Deletions(s, envs))
    {
      for i := 0 to |envs|
        invariant writes == old(writes) + Pushed(Deletions(s, envs[..i]))
      {
        Put(s.Home(envs[i]), None, [s.service]);
        assert Deletions(s, envs[..i + 1]) == Deletions(s, envs[..i]) + [Write(s.Home(envs[i]), None, [s.service])];
      }
      assert envs[..|envs|] == envs;
    }

    method ArchiveProduct(expectedBase: Option<Files>, force: bool, at: string, author: string) returns (failure: Option<Refusal>)
      requires Fresh()
      modifies this
      ensures Did(Archive(s, expectedBase, force, at, author), failure)
    {
      if !BaseMatches(expectedBase, s) {
        return Some(ProductChanged);
      }
      var identity := RequireIdentity();
      if identity.Err? {
        return Some(identity.error);
      }
      if !s.schema.value.retiring {
        return Some(NotRetiring);
      }
      if ArchivedYaml(s.service) in s.files && !force {
        return Some(ArchiveExists);
      }
      var entries := Entries(s.registry).value;
      if Null in entries {
        return Some(Unreadable);
      }
      var source := Peek(s.files, SchemaYaml(s.service));
      if source.None? {
        return Some(UnknownProduct);
      }
      var archive := ArchiveDocument(s, identity.value, source.value, at, author);
      var registry := WithEntries(s.registry, Without(entries, s.service));
      var envs := ListNames(s.Environments());
      PushArchive(registry, archive, envs);
      return None;
    }

    /** The registry first, the schema last. */
    method PushArchive(registry: Yaml, archive: Yaml, envs: seq<string>)
      modifies this`writes
      ensures writes == old(writes) + Pushed([Write(SERVICES_YAML, Some(Stringify(registry)), [s.service]),
                                              Write(ArchivedYaml(s.service), Some(Stringify(archive)), [s.service])]
                                             + Deletions(s, envs) + [Write(SchemaYaml(s.service), None, [s.service])])
    {
      Put(SERVICES_YAML, Some(Stringify(registry)), [s.service]);
      Put(ArchivedYaml(s.service), Some(Stringify(archive)), [s.service]);
      PushDeletions(envs);
      Put(SchemaYaml(s.service), None, [s.service]);
      ghost var head := [Write(SERVICES_YAML, Some(Stringify(registry)), [s.service]),
                         Write(ArchivedYaml(s.service), Some(Stringify(archive)), [s.service])];
      assert Pushed(head) == Pushed([head[0]]) + Pushed([head[1]]);
      MutationsConcat(s.files, s.ctx.actor, head, Deletions(s, envs));
      MutationsConcat(s.files, s.ctx.actor, head + Deletions(s, envs), [Write(SchemaYaml(s.service), None, [s.service])]);
    }

    method Perform(op: Operation) returns (failure: Option<Refusal>)
      requires Fresh()
      modifies this
      ensures Did(Act(s, op), failure)
    {
      match op
      case CreateOp(uid, environments, schema, defaults) => failure := CreateProduct(uid, environments, schema, defaults);
      case WriteOp(environment, changes, expected) => failure := WriteProductValues(environment, changes, expected);
      case RetireOp(retiring, force) => failure := MarkRetiring(retiring, force);
      case PromoteOp(from, to, keys) => failure := PromoteValues(from, to, keys);
      case AddOp(environment, drafts, expected) => failure := AddProductKeys(environment, drafts, expected);
      case DeleteOp(keys, expectedBase) => failure := DeleteProductKeys(keys, expectedBase);
      case ArchiveOp(expectedBase, force, at, author) => failure := ArchiveProduct(expectedBase, force, at, author);
    }

    /** What `commit` hands to the engine. */
    method Commit() returns (req: Request)
      ensures req == Request(writes, ChecksOf(s.files, consulted),
                             [ListingCheck(ConfigDir(s.service), Listed(s.Environments()))])
    {
      var names := ListNames(s.Environments());
      req := Request(writes, ChecksOf(s.files, consulted), [ListingCheck(ConfigDir(s.service), names)]);
    }
  }

  /** `run`: open a session on a snapshot, act, and ask the engine for the outcome. */
  method Run(ctx: Context, service: string, op: Operation, files: Files) returns (r: Result<Request, Refusal>)
    ensures
      match Perform(ctx, service, op, files)
      case Ok(plan) =>
        && r == Ok(RequestOf(files, ctx.actor, service, plan))
        && |r.value.muts| == |plan.writes|
        && forall i :: 0 <= i < |plan.writes| ==>
             && r.value.muts[i].path == plan.writes[i].path && r.value.muts[i].content == plan.writes[i].content
             && r.value.muts[i].who.actor == ctx.actor && r.value.muts[i].who.keys == plan.writes[i].keys
             && r.value.muts[i].valid
      case Err(e) => r == Err(e)
  {
    if !Identifier(service) {
      return Err(InvalidName);
    }
    var schemas := FromTree(ctx.host, files);
    var registry := RegistryDocument(Peek(files, SERVICES_YAML));
    if schemas.None? || registry.None? {
      return Err(Unreadable);
    }
    var schema := if service in schemas.value then Some(schemas.value[service]) else None;
    var session := new ProductMutation(Session(ctx, service, files, schema, registry.value,
                                               OrderOf(Peek(files, ENVIRONMENTS_YAML))));
    assert Open(ctx, service, files) == Ok(session.s);
    var failure := session.Perform(op);
    if failure.Some? {
      return Err(failure.value);
    }
    var req := session.Commit();
    return Ok(req);
  }
}
