/** What the product operations do to the documents they touch, and to everything else. */
module ProductEffects {
  import opened Wrappers
  import opened Documents
  import opened Text
  import Storage
  import opened Requests
  import opened Schemas
  import opened Builder
  import opened Registry
  import opened Products
  import opened Consistency
  import opened Visibility
  import opened ProductSafety
  import opened KeyEdits
  import opened KeyAdditions

  // ---- changes to one document ----

  /** Keys that are not named keep their values. */
  lemma {:induction false} UnnamedKept(config: Config, changes: seq<Change>, key: string)
    requires ApplyChanges(config, changes).Ok? && forall i :: 0 <= i < |changes| ==> changes[i].key != key
    ensures At(ApplyChanges(config, changes).value, key) == At(config, key)
    decreases |changes|
  {
    if changes != [] {
      UnnamedKept(config[changes[0].key := changes[0].value.value], changes[1..], key);
    }
  }

  function Picked(keys: seq<string>, source: Config): Config {
    map k | k in keys && k in source :: source[k]
  }

  lemma CopiedFirst(config: Config, keys: seq<string>, source: Config)
    requires keys != [] && forall i :: 0 <= i < |keys| ==> keys[i] in source
    ensures Copied(keys, source)[0] == Change(keys[0], Some(source[keys[0]]))
    ensures forall i :: 0 <= i < |keys[1..]| ==> keys[1..][i] in source
    ensures Copied(keys, source)[1..] == Copied(keys[1..], source)
    ensures config[keys[0] := source[keys[0]]] + Picked(keys[1..], source) == config + Picked(keys, source)
  {
    assert keys == [keys[0]] + keys[1..];
    assert forall i :: 0 <= i < |keys[1..]| ==> keys[1..][i] == keys[i + 1];
    assert Copied(keys, source)[1..] == Copied(keys[1..], source);
  }

  /** Copying keys lays exactly their values over the document; metadata is never among them. */
  lemma {:induction false} CopiedApplies(config: Config, keys: seq<string>, source: Config)
    requires forall i :: 0 <= i < |keys| ==> keys[i] in source
    ensures (exists i :: 0 <= i < |keys| && keys[i] in METADATA) ==>
              ApplyChanges(config, Copied(keys, source)) == Err(MetadataEdited)
    ensures (forall i :: 0 <= i < |keys| ==> keys[i] !in METADATA) ==>
              ApplyChanges(config, Copied(keys, source)) == Ok(config + Picked(keys, source))
    decreases |keys|
  {
    var changes := Copied(keys, source);
    if keys == [] {
      assert Picked(keys, source) == map[] && config + map[] == config;
      assert changes == [];
    } else {
      CopiedFirst(config, keys, source);
      assert forall i :: 0 <= i < |keys[1..]| ==> keys[1..][i] == keys[i + 1];
      CopiedApplies(config[keys[0] := source[keys[0]]], keys[1..], source);
      if i :| 0 <= i < |keys| && keys[i] in METADATA {
        assert i > 0 ==> keys[1..][i - 1] in METADATA;
      }
    }
  }

  /** The document an environment holds in some file set. */
  function Held(s: Session, files: Files, environment: string): Config {
    if s.Home(environment) in files && Resolve(s.ctx.host, files[s.Home(environment)]).Some?
    then Resolve(s.ctx.host, files[s.Home(environment)]).value
    else map[]
  }

  /** The document now holds `next`; it is one version on if that is a change or a new file, and the same file if not. */
  ghost predicate SteppedTo(s: Session, before: Files, after: Files, e: string, next: Config) {
    && ConfigOnly(Held(s, after, e)) == next
    && (if s.Home(e) in before && ConfigOnly(Held(s, before, e)) == next
        then Peek(after, s.Home(e)) == Peek(before, s.Home(e))
        else VersionOf(Held(s, after, e)) == VersionOf(Held(s, before, e)) + 1)
    && (s.Home(e) !in before ==> VersionOf(Held(s, after, e)) == 1)
  }

  lemma RewrittenSteps(s: Session, before: Files, after: Files, e: string, current: Config, next: Config,
                       keys: Keys, touched: seq<string>)
    requires Rewritten(s, e, current, next, keys, touched).Ok?
    requires next.Keys !! METADATA && Accepts(s.ctx.host, keys, next)
    requires ConfigOnly(current) != next || s.Home(e) !in before
    requires Held(s, before, e) == current
    requires Peek(after, s.Home(e)) == Rewritten(s, e, current, next, keys, touched).value[0].content
    ensures SteppedTo(s, before, after, e, next)
  {
    RewrittenIsOk(s, e, current, next, keys, touched);
  }

  /** Writing values: the named environment takes the changes, every other file stays. */
  lemma ValuesEffect(s: Session, e: string, changes: seq<Change>, expected: Expected)
    requires s.schema.Some? && Values(s, e, changes, expected).Ok?
    ensures
      var after := Applied(s.files, Values(s, e, changes, expected).value);
      && ApplyChanges(ConfigOnly(Held(s, s.files, e)), changes).Ok?
      && SteppedTo(s, s.files, after, e, ApplyChanges(ConfigOnly(Held(s, s.files, e)), changes).value)
      && forall p :: p != s.Home(e) ==> Peek(after, p) == Peek(s.files, p)
  {
    var current := Document(s, e).value;
    assert current == Held(s, s.files, e);
    var next := ApplyChanges(ConfigOnly(current), changes).value;
    var writes := Values(s, e, changes, expected).value;
    ChangesKeepOut(ConfigOnly(current), changes);
    if writes == [] {
      assert Applied(s.files, writes) == s.files;
    } else {
      var touched := TouchedKeys(changes, ConfigOnly(current), next);
      assert Rewritten(s, e, current, next, s.Keys(), touched) == Ok(writes);
      OneWriteLands(s, e, current, next, touched, writes);
    }
  }

  lemma OneWriteLands(s: Session, e: string, current: Config, next: Config, touched: seq<string>, writes: seq<Write>)
    requires Rewritten(s, e, current, next, s.Keys(), touched) == Ok(writes)
    requires next.Keys !! METADATA && Accepts(s.ctx.host, s.Keys(), next)
    requires ConfigOnly(current) != next || s.Home(e) !in s.files
    requires Held(s, s.files, e) == current
    ensures SteppedTo(s, s.files, Applied(s.files, writes), e, next)
    ensures forall p :: p != s.Home(e) ==> Peek(Applied(s.files, writes), p) == Peek(s.files, p)
  {
    assert writes == [writes[0]];
    AppliedOne(s.files, writes[0]);
    RewrittenSteps(s, s.files, Applied(s.files, writes), e, current, next, s.Keys(), touched);
  }

  // ---- promotion ----

  lemma StoredOrEmpty(s: Session, e: string)
    requires Ready(s) && s.schema.Some? && Document(s, e).Ok?
    ensures Accepts(s.ctx.host, s.Keys(), ConfigOnly(Document(s, e).value))
    ensures Document(s, e).value == Held(s, s.files, e)
  {
    ReadySchema(s);
    if s.Home(e) in s.files {
      StoredDocument(s, e);
    }
  }

  lemma PickedAccepted(host: Host, keys: Keys, source: Config, selected: seq<string>)
    requires Accepts(host, keys, ConfigOnly(source)) && forall k :: k in selected ==> k !in METADATA
    ensures Accepts(host, keys, Picked(selected, source))
  {
    forall k | k in Picked(selected, source)
      ensures k in keys && Permits(host, keys[k], source[k])
    {
      assert k in ConfigOnly(source);
    }
  }

  /** A value that is valid in one environment is valid in the next: promotion never fails validation. */
  lemma PromoteNeverInvalid(s: Session, from: string, to: string, keys: seq<string>)
    requires Ready(s)
    ensures Promote(s, from, to, keys) != Err(InvalidValues)
  {
    if Promote(s, from, to, keys) == Err(InvalidValues) {
      PromoteWhere(s, from, to, keys);
      var selected, source := Select(s, keys).value, Document(s, from).value;
      assert forall i :: 0 <= i < |selected| ==> selected[i] in selected;
      StoredOrEmpty(s, from);
      if Document(s, to).Ok? {
        StoredOrEmpty(s, to);
      }
      CopiesNeverInvalid(s, to, selected, source);
      assert false;
    }
  }

  lemma CopiesNeverInvalid(s: Session, to: string, selected: seq<string>, source: Config)
    requires s.schema.Some? && Accepts(s.ctx.host, s.Keys(), ConfigOnly(source))
    requires Document(s, to).Ok? ==> Accepts(s.ctx.host, s.Keys(), ConfigOnly(Document(s, to).value))
    requires forall i :: 0 <= i < |selected| ==> selected[i] in source
    ensures Values(s, to, Copied(selected, source), None) != Err(InvalidValues)
  {
    if Document(s, to).Ok? {
      CopiedIsAccepted(s.ctx.host, s.Keys(), ConfigOnly(Document(s, to).value), selected, source);
      AcceptedIsNotInvalid(s, to, Copied(selected, source));
    }
  }

  lemma CopiedIsAccepted(host: Host, keys: Keys, target: Config, selected: seq<string>, source: Config)
    requires Accepts(host, keys, target) && Accepts(host, keys, ConfigOnly(source))
    requires forall i :: 0 <= i < |selected| ==> selected[i] in source
    ensures
      var r := ApplyChanges(target, Copied(selected, source));
      r == Err(MetadataEdited) || (r.Ok? && Accepts(host, keys, r.value))
  {
    CopiedApplies(target, selected, source);
    if forall i :: 0 <= i < |selected| ==> selected[i] !in METADATA {
      PickedAccepted(host, keys, source, selected);
      AcceptsMerged(host, keys, target, Picked(selected, source));
    }
  }

  lemma AcceptedIsNotInvalid(s: Session, to: string, changes: seq<Change>)
    requires s.schema.Some? && Document(s, to).Ok?
    requires
      var r := ApplyChanges(ConfigOnly(Document(s, to).value), changes);
      r == Err(MetadataEdited) || (r.Ok? && Accepts(s.ctx.host, s.Keys(), r.value))
    ensures Values(s, to, changes, None) != Err(InvalidValues)
  {
  }

  lemma PromoteWhere(s: Session, from: string, to: string, keys: seq<string>)
    requires Promote(s, from, to, keys) == Err(InvalidValues)
    ensures s.schema.Some? && Select(s, keys).Ok? && Document(s, from).Ok?
    ensures forall k :: k in Select(s, keys).value ==> k in Document(s, from).value
    ensures Values(s, to, Copied(Select(s, keys).value, Document(s, from).value), None) == Err(InvalidValues)
  {
  }

  /** What an accepted promotion has checked, and what it writes. */
  lemma PromoteParts(s: Session, from: string, to: string, keys: seq<string>)
    requires Promote(s, from, to, keys).Ok?
    ensures s.schema.Some? && Select(s, keys).Ok? && Document(s, from).Ok?
    ensures forall i :: 0 <= i < |Select(s, keys).value| ==> Select(s, keys).value[i] in Document(s, from).value
    ensures Values(s, to, Copied(Select(s, keys).value, Document(s, from).value), None)
            == Ok(Promote(s, from, to, keys).value.writes)
    ensures forall k :: k in Select(s, keys).value <==> k in keys
  {
    assert forall i :: 0 <= i < |Select(s, keys).value| ==> Select(s, keys).value[i] in Select(s, keys).value;
  }

  /** Promotion copies exactly the selected values; no other key, and no other file, changes. */
  lemma PromoteEffect(s: Session, from: string, to: string, keys: seq<string>)
    requires Ready(s) && Promote(s, from, to, keys).Ok?
    ensures
      var after := Applied(s.files, Promote(s, from, to, keys).value.writes);
      && SteppedTo(s, s.files, after, to, ConfigOnly(Held(s, s.files, to)) + Picked(keys, Held(s, s.files, from)))
      && forall p :: p != s.Home(to) ==> Peek(after, p) == Peek(s.files, p)
  {
    PromoteParts(s, from, to, keys);
    var selected, source := Select(s, keys).value, Document(s, from).value;
    StoredOrEmpty(s, from);
    assert Picked(selected, source) == Picked(keys, source);
    CopiedApplies(ConfigOnly(Held(s, s.files, to)), selected, source);
    ValuesEffect(s, to, Copied(selected, source), None);
  }

  // ---- edits of every environment ----

  lemma {:induction false} RewriteAllElsewhere(s: Session, files: Files, keys: Keys, edit: Edit, touched: seq<string>,
                                               envs: seq<string>, p: Path)
    requires RewriteAll(s, keys, edit, touched, envs).Ok? && forall i :: 0 <= i < |envs| ==> s.Home(envs[i]) != p
    ensures Peek(Applied(files, RewriteAll(s, keys, edit, touched, envs).value), p) == Peek(files, p)
    decreases |envs|
  {
    if envs != [] {
      var first := Rewrite(s, keys, edit, touched, envs[0]).value;
      var later := RewriteAll(s, keys, edit, touched, envs[1..]).value;
      AppliedConcat(files, first, later);
      RewriteOnly(s, files, keys, edit, touched, envs[0]);
      RewriteAllElsewhere(s, Applied(files, first), keys, edit, touched, envs[1..], p);
    }
  }

  lemma RewriteOnly(s: Session, files: Files, keys: Keys, edit: Edit, touched: seq<string>, e: string)
    requires Rewrite(s, keys, edit, touched, e).Ok?
    ensures
      var writes := Rewrite(s, keys, edit, touched, e).value;
      && (writes == [] || (|writes| == 1 && writes[0].path == s.Home(e)))
      && (forall p :: p != s.Home(e) ==> Peek(Applied(files, writes), p) == Peek(files, p))
      && Peek(Applied(files, writes), s.Home(e)) == (if writes == [] then Peek(files, s.Home(e)) else writes[0].content)
  {
    var writes := Rewrite(s, keys, edit, touched, e).value;
    if writes != [] {
      assert writes == [writes[0]];
      AppliedOne(files, writes[0]);
    }
  }

  /** Each environment ends as its own rewrite leaves it. */
  lemma {:induction false} RewriteAllAt(s: Session, files: Files, keys: Keys, edit: Edit, touched: seq<string>,
                                        envs: seq<string>, e: string)
    requires RewriteAll(s, keys, edit, touched, envs).Ok? && Listing(s, envs) && e in envs
    ensures Rewrite(s, keys, edit, touched, e).Ok?
    ensures Peek(Applied(files, RewriteAll(s, keys, edit, touched, envs).value), s.Home(e))
            == var own := Rewrite(s, keys, edit, touched, e).value;
               if own == [] then Peek(files, s.Home(e)) else own[0].content
    decreases |envs|
  {
    ListingTail(s, envs);
    assert envs == [envs[0]] + envs[1..];
    var first := Rewrite(s, keys, edit, touched, envs[0]).value;
    var later := RewriteAll(s, keys, edit, touched, envs[1..]).value;
    AppliedConcat(files, first, later);
    RewriteOnly(s, files, keys, edit, touched, envs[0]);
    if e == envs[0] {
      RewriteAllElsewhere(s, Applied(files, first), keys, edit, touched, envs[1..], s.Home(e));
    } else {
      RewriteAllAt(s, Applied(files, first), keys, edit, touched, envs[1..], e);
    }
  }

  lemma DropSteps(s: Session, after: Files, keys: seq<string>, e: string)
    requires Ready(s) && s.schema.Some? && e in s.Environments()
    requires Rewrite(s, s.Keys() - Dropped(keys), Drop(keys), keys, e).Ok?
    requires Peek(after, s.Home(e))
             == var own := Rewrite(s, s.Keys() - Dropped(keys), Drop(keys), keys, e).value;
                if own == [] then Peek(s.files, s.Home(e)) else own[0].content
    ensures SteppedTo(s, s.files, after, e, ConfigOnly(Held(s, s.files, e)) - Dropped(keys))
  {
    DropAccepted(s, keys, e);
    var current := Document(s, e).value;
    var next := ConfigOnly(current) - Dropped(keys);
    if next != ConfigOnly(current) {
      RewrittenSteps(s, s.files, after, e, current, next, s.Keys() - Dropped(keys), keys);
    }
  }

  /** Deletion takes the selected keys, and nothing else, out of the schema and of every environment. */
  lemma DeleteEffect(s: Session, selected: seq<string>, expected: Option<Files>)
    requires Ready(s) && DeleteKeys(s, selected, expected).Ok?
    ensures
      var after := Applied(s.files, DeleteKeys(s, selected, expected).value.writes);
      && (forall e :: e in s.Environments() ==>
            SteppedTo(s, s.files, after, e, ConfigOnly(Held(s, s.files, e)) - Dropped(selected)))
      && KeysAt(s.ctx.host, after, s.service) == Some(s.Keys() - Dropped(selected))
      && (forall p :: p != SchemaYaml(s.service) && p.dir != ConfigDir(s.service) ==> Peek(after, p) == Peek(s.files, p))
  {
    var keys, envs := Select(s, selected).value, Listed(s.Environments());
    assert Dropped(keys) == Dropped(selected);
    ReadySchema(s);
    ShrunkSchema(s, keys);
    var fields := SchemaFields(s).value;
    var source := Stringify(Map(fields["keys" := Map(DeclaredKeys(fields) - Dropped(keys))]));
    assert forall i :: 0 <= i < |envs| ==> envs[i] in envs;
    DeleteLands(s, keys, envs, Write(SchemaYaml(s.service), Some(source), keys));
  }

  lemma DeleteLands(s: Session, keys: seq<string>, envs: seq<string>, last: Write)
    requires Ready(s) && s.schema.Some? && envs == Listed(s.Environments()) && Listing(s, envs)
    requires RewriteAll(s, s.Keys() - Dropped(keys), Drop(keys), keys, envs).Ok?
    requires last.path == SchemaYaml(s.service) && last.content.Some?
    requires ParseSchema(s.ctx.host, last.content.value).Some?
    requires ParseSchema(s.ctx.host, last.content.value).value.keys == s.Keys() - Dropped(keys)
    ensures
      var after := Applied(s.files, RewriteAll(s, s.Keys() - Dropped(keys), Drop(keys), keys, envs).value + [last]);
      && (forall e :: e in s.Environments() ==>
            SteppedTo(s, s.files, after, e, ConfigOnly(Held(s, s.files, e)) - Dropped(keys)))
      && KeysAt(s.ctx.host, after, s.service) == Some(s.Keys() - Dropped(keys))
      && (forall p :: p != SchemaYaml(s.service) && p.dir != ConfigDir(s.service) ==> Peek(after, p) == Peek(s.files, p))
  {
    var fewer := s.Keys() - Dropped(keys);
    var writes := RewriteAll(s, fewer, Drop(keys), keys, envs).value;
    var middle := Applied(s.files, writes);
    AppliedConcat(s.files, writes, [last]);
    AppliedOne(middle, last);
    var after := Applied(s.files, writes + [last]);
    forall e | e in s.Environments()
      ensures SteppedTo(s, s.files, after, e, ConfigOnly(Held(s, s.files, e)) - Dropped(keys))
    {
      RewriteAllAt(s, s.files, fewer, Drop(keys), keys, envs, e);
      assert Peek(after, s.Home(e)) == Peek(middle, s.Home(e));
      DropSteps(s, after, keys, e);
    }
    forall p | p != SchemaYaml(s.service) && p.dir != ConfigDir(s.service) ensures Peek(after, p) == Peek(s.files, p) {
      RewriteAllElsewhere(s, s.files, fewer, Drop(keys), keys, envs, p);
    }
  }

  // ---- archiving ----

  lemma {:induction false} DeletionsAt(s: Session, files: Files, envs: seq<string>, p: Path)
    ensures Peek(Applied(files, Deletions(s, envs)), p)
            == if exists i :: 0 <= i < |envs| && p == s.Home(envs[i]) then None else Peek(files, p)
    decreases |envs|
  {
    if envs != [] {
      DeletionsAt(s, files - {s.Home(envs[0])}, envs[1..], p);
      assert Deletions(s, envs)[1..] == Deletions(s, envs[1..]);
      assert forall i :: 0 <= i < |envs[1..]| ==> envs[1..][i] == envs[i + 1];
      if j :| 0 <= j < |envs| && p == s.Home(envs[j]) {
        assert j > 0 ==> envs[1..][j - 1] == envs[j];
      }
    }
  }

  /** A file no operation on this product writes. */
  predicate Foreign(s: Session, p: Path) {
    p.dir != ConfigDir(s.service) && p !in [SERVICES_YAML, SchemaYaml(s.service), ArchivedYaml(s.service)]
  }

  /** What an accepted archiving has checked, and what it writes. */
  lemma ArchiveParts(s: Session, expected: Option<Files>, force: bool, at: string, author: string)
    requires Archive(s, expected, force, at, author).Ok?
    ensures Entries(s.registry).Ok? && RequireProduct(s).Ok? && SchemaYaml(s.service) in s.files
    ensures
      var writes := Archive(s, expected, force, at, author).value.writes;
      && |writes| >= 2
      && writes[0] == Write(SERVICES_YAML, Some(Stringify(WithEntries(s.registry, Without(Entries(s.registry).value, s.service)))),
                            [s.service])
      && writes[1] == Write(ArchivedYaml(s.service),
                            Some(Stringify(ArchiveDocument(s, RequireProduct(s).value, s.files[SchemaYaml(s.service)], at, author))),
                            [s.service])
      && writes == [writes[0], writes[1]] + Deletions(s, Listed(s.Environments()))
                   + [Write(SchemaYaml(s.service), None, [s.service])]
  {
  }

  /**
   * Archiving keeps the text of the schema and of every environment as it was, and takes the product
   * out of the live tree: no schema, no environment, no grant. No other file changes.
   */
  lemma ArchiveEffect(s: Session, expected: Option<Files>, force: bool, at: string, author: string)
    requires Ready(s) && Archive(s, expected, force, at, author).Ok?
    ensures
      var after := Applied(s.files, Archive(s, expected, force, at, author).value.writes);
      && SchemaYaml(s.service) !in after && Names(after, ConfigDir(s.service)) == {}
      && Ungranted(after, s.service)
      && (exists kept, identity :: RequireProduct(s) == Ok(identity) && IsArchiveOf(s, kept, identity, at, author)
                                   && Peek(after, ArchivedYaml(s.service)) == Some(Stringify(Map(kept))))
      && (forall p :: Foreign(s, p) ==> Peek(after, p) == Peek(s.files, p))
  {
    ArchiveParts(s, expected, force, at, author);
    var writes := Archive(s, expected, force, at, author).value.writes;
    var identity := RequireProduct(s).value;
    ArchiveKeepsTexts(s, identity, at, author);
    ArchiveLands(s, writes[0], writes[1], Write(SchemaYaml(s.service), None, [s.service]));
    GrantIsGone(s, Applied(s.files, writes), writes[0]);
    var kept := ArchiveDocument(s, identity, s.files[SchemaYaml(s.service)], at, author).fields;
    assert IsArchiveOf(s, kept, identity, at, author);
  }

  lemma GrantIsGone(s: Session, after: Files, strike: Write)
    requires Ready(s) && Entries(s.registry).Ok? && strike.path == SERVICES_YAML
    requires strike.content == Some(Stringify(WithEntries(s.registry, Without(Entries(s.registry).value, s.service))))
    requires Peek(after, SERVICES_YAML) == strike.content
    ensures Ungranted(after, s.service)
  {
    ArchiveRegistryStep(s, strike);
    AppliedOne(s.files, strike);
  }

  /** The archive's fields hold when and by whom, the product's registry entry, and every live text of it. */
  ghost predicate IsArchiveOf(s: Session, kept: Config, identity: Yaml, at: string, author: string) {
    && kept.Keys == {"version", "archived", "service", "schema", "environments"} && kept["service"] == identity
    && kept["version"] == Num(Int(1)) && kept["archived"] == Map(map["at" := Str(at), "by" := Str(author)])
    && kept["environments"].Map? && kept["environments"].fields.Keys == s.Environments()
    && (forall e :: e in s.Environments() ==>
          s.Home(e) in s.files && kept["environments"].fields[e] == Source(s.files[s.Home(e)]))
    && SchemaYaml(s.service) in s.files && kept["schema"] == Source(s.files[SchemaYaml(s.service)])
  }

  lemma ArchiveKeepsTexts(s: Session, identity: Yaml, at: string, author: string)
    requires SchemaYaml(s.service) in s.files
    ensures IsArchiveOf(s, ArchiveDocument(s, identity, s.files[SchemaYaml(s.service)], at, author).fields, identity, at, author)
  {
    forall e | e in s.Environments() ensures s.Home(e) in s.files {
    }
  }

  lemma ArchiveLands(s: Session, strike: Write, keep: Write, last: Write)
    requires strike.path == SERVICES_YAML && strike.content.Some?
    requires keep.path == ArchivedYaml(s.service) && last == Write(SchemaYaml(s.service), None, [s.service])
    ensures
      var after := Applied(s.files, [strike, keep] + Deletions(s, Listed(s.Environments())) + [last]);
      && SchemaYaml(s.service) !in after && Names(after, ConfigDir(s.service)) == {}
      && Peek(after, SERVICES_YAML) == strike.content && Peek(after, ArchivedYaml(s.service)) == keep.content
      && (forall p :: Foreign(s, p) ==> Peek(after, p) == Peek(s.files, p))
  {
    var envs := Listed(s.Environments());
    var removals := Deletions(s, envs);
    AppliedConcat(s.files, [strike, keep] + removals, [last]);
    AppliedConcat(s.files, [strike, keep], removals);
    var struck := Storage.Put(s.files, strike.path, strike.content);
    var archived := Storage.Put(struck, keep.path, keep.content);
    assert Applied(s.files, [strike, keep]) == archived by {
      assert [strike, keep][1..] == [keep];
      AppliedOne(struck, keep);
    }
    var emptied := Applied(archived, removals);
    AppliedOne(emptied, last);
    var after := emptied - {SchemaYaml(s.service)};
    forall p ensures Peek(emptied, p) == if p.dir == ConfigDir(s.service) && p.yaml then None else Peek(archived, p) {
      DeletionsAt(s, archived, envs, p);
      if p.dir == ConfigDir(s.service) && p.yaml && p in archived {
        assert p.name in s.Environments();
        var i :| 0 <= i < |envs| && envs[i] == p.name;
        assert p == s.Home(envs[i]);
      }
    }
    forall p | p in after && p.dir == ConfigDir(s.service) && p.yaml ensures Peek(emptied, p) == None {
    }
  }
}
