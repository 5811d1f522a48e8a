/** When adding and deleting keys is refused, and what an addition leaves behind. */
module KeyDecisions {
  import opened Wrappers
  import opened Documents
  import opened Text
  import Storage
  import opened Requests
  import opened Schemas
  import opened Builder
  import opened Registry
  import opened Products
  import opened Consistency
  import opened Visibility
  import opened ProductSafety
  import opened KeyEdits
  import opened KeyAdditions
  import opened ProductEffects
  import opened ProductDecisions

  // ---- what a set of drafts asks for ----

  /** A draft's default is stored unless it is secret. */
  function Supplied(d: KeyDraft): Option<Yaml> {
    if d.secret || d.fallback == Some(Null) then None else d.fallback
  }

  /** `values` holds each draft's default under its own name, and nothing else. */
  ghost predicate HoldsDefaults(values: Config, drafts: seq<KeyDraft>) {
    && (forall k :: k in values ==> exists i :: 0 <= i < |drafts| && NameOf(drafts[i]) == k)
    && (forall i :: 0 <= i < |drafts| ==> At(values, NameOf(drafts[i])) == Supplied(drafts[i]))
  }

  lemma NamesApart(drafts: seq<KeyDraft>, i: nat, j: nat)
    requires NamesDiffer(drafts) && i < j < |drafts|
    ensures NameOf(drafts[i]) != NameOf(drafts[j])
  {
    assert NameOf(drafts[j]) !in NamesBefore(drafts, j);
  }

  lemma NamesDifferInit(drafts: seq<KeyDraft>)
    requires NamesDiffer(drafts) && drafts != []
    ensures NamesDiffer(drafts[..|drafts| - 1])
  {
    var init := drafts[..|drafts| - 1];
    forall i: nat | i < |init| ensures NameOf(init[i]) !in NamesBefore(init, i) {
      assert NamesBefore(init, i) == NamesBefore(drafts, i);
    }
  }

  lemma LastIsNew(drafts: seq<KeyDraft>, values: Config)
    requires drafts != [] && NamesDiffer(drafts) && HoldsDefaults(values, drafts[..|drafts| - 1])
    ensures NameOf(drafts[|drafts| - 1]) !in values
  {
    forall j | 0 <= j < |drafts| - 1 ensures NameOf(drafts[j]) != NameOf(drafts[|drafts| - 1]) {
      NamesApart(drafts, j, |drafts| - 1);
    }
  }

  lemma {:induction false} DefaultsHeld(drafts: seq<KeyDraft>)
    requires NamesDiffer(drafts)
    ensures HoldsDefaults(DraftDefaults(drafts), drafts)
  {
    if drafts != [] {
      var init, n := drafts[..|drafts| - 1], |drafts| - 1;
      NamesDifferInit(drafts);
      DefaultsHeld(init);
      forall i | 0 <= i < |drafts|
        ensures At(DraftDefaults(drafts), NameOf(drafts[i])) == Supplied(drafts[i])
      {
        if i < n {
          NamesApart(drafts, i, n);
          assert init[i] == drafts[i];
        } else {
          LastIsNew(drafts, DraftDefaults(init));
        }
      }
      forall k | k in DraftDefaults(drafts) ensures exists i :: 0 <= i < |drafts| && NameOf(drafts[i]) == k {
        DefaultsAreNamed(drafts, k);
      }
    }
  }

  lemma DefaultsUnique(a: Config, b: Config, drafts: seq<KeyDraft>)
    requires HoldsDefaults(a, drafts) && HoldsDefaults(b, drafts)
    ensures a == b
  {
    forall k ensures At(a, k) == At(b, k) {
      if i :| 0 <= i < |drafts| && NameOf(drafts[i]) == k {
        assert At(a, k) == At(b, k);
      }
    }
    SameEverywhere(a, b);
  }

  /** The keys of `before` beside exactly those the drafts define. */
  ghost predicate Extends(after: Keys, before: Keys, drafts: seq<KeyDraft>) {
    && (forall k :: k in after ==> k in before || exists i :: 0 <= i < |drafts| && NameOf(drafts[i]) == k)
    && (forall k :: k in before ==> k in after && after[k] == before[k])
    && (forall i :: 0 <= i < |drafts| ==> NameOf(drafts[i]) in after && after[NameOf(drafts[i])] == Asked(drafts[i]))
  }

  /** The declarations of flawless drafts parse exactly when all are sound. */
  lemma DeclarationsParse(host: Host, drafts: seq<KeyDraft>)
    requires Clean(host, drafts)
    ensures Declarations(drafts).Keys == NamesBefore(drafts, |drafts|)
    ensures ParseKeys(host, Declarations(drafts)).Some? <==> AllSound(host, drafts)
    ensures ParseKeys(host, Declarations(drafts)).Some? ==> Defines(ParseKeys(host, Declarations(drafts)).value, drafts)
  {
    CleanNamesDiffer(host, drafts);
    AllDeclared(drafts);
    forall i: nat | i < |drafts|
      ensures ParseKey(host, Declarations(drafts)[NameOf(drafts[i])])
              == if Sound(host, drafts[i]) then Some(Asked(drafts[i])) else None
    {
      DeclarationParses(host, drafts[i], NamesBefore(drafts, i));
    }
    DraftsParse(host, drafts, Declarations(drafts));
  }

  lemma ParseKeysJoin(host: Host, a: Config, b: Config)
    requires ParseKeys(host, a).Some? && a.Keys !! b.Keys
    ensures ParseKeys(host, a + b).Some? <==> ParseKeys(host, b).Some?
    ensures ParseKeys(host, b).Some? ==> ParseKeys(host, a + b) == Some(ParseKeys(host, a).value + ParseKeys(host, b).value)
  {
    if ParseKeys(host, a + b).Some? {
      ParseKeysSplit(host, a, b);
    } else {
      var k :| k in a + b && ParseKey(host, (a + b)[k]).None?;
      assert k in b;
    }
    if ParseKeys(host, b).Some? {
      assert forall k :: k in a + b ==> ParseKey(host, (a + b)[k]).Some?;
    }
  }

  predicate Clashes(s: Session, drafts: seq<KeyDraft>) {
    exists i :: 0 <= i < |drafts| && NameOf(drafts[i]) in s.Keys()
  }

  /** Laying sound declarations beside a schema's own gives a schema that defines both; unsound ones give none. */
  lemma GrownParses(host: Host, fields: Config, keys: Keys, retiring: bool, drafts: seq<KeyDraft>)
    requires ParseSchema(host, Stringify(Map(fields))) == Some(Schema(keys, retiring))
    requires ParseKeys(host, DeclaredKeys(fields)) == Some(keys)
    requires Clean(host, drafts) && Declarations(drafts).Keys !! DeclaredKeys(fields).Keys
    ensures
      var r := ParseSchema(host, Stringify(Map(fields["keys" := Map(DeclaredKeys(fields) + Declarations(drafts))])));
      && (r.Some? <==> AllSound(host, drafts))
      && (r.Some? ==> r.value.retiring == retiring && Extends(r.value.keys, keys, drafts))
  {
    var was, added := DeclaredKeys(fields), Declarations(drafts);
    DeclarationsParse(host, drafts);
    SchemaWithKeys(host, fields, was + added);
    ParseKeysJoin(host, was, added);
    if AllSound(host, drafts) {
      ExtendsIs(keys, ParseKeys(host, added).value, drafts);
    }
  }

  lemma ExtendsIs(keys: Keys, added: Keys, drafts: seq<KeyDraft>)
    requires Defines(added, drafts) && added.Keys !! keys.Keys
    ensures Extends(keys + added, keys, drafts)
  {
  }

  /** The schema beside which the drafts' keys are laid, or what is wrong with them. */
  lemma GrowDecides(s: Session, drafts: seq<KeyDraft>)
    requires Ready(s) && s.schema.Some?
    ensures
      var r := Grow(s, drafts);
      && (!Clean(s.ctx.host, drafts) ==> r == Err(InvalidDrafts))
      && (Clean(s.ctx.host, drafts) && Clashes(s, drafts) ==> r == Err(AlreadyDeclared))
      && (Clean(s.ctx.host, drafts) && !Clashes(s, drafts) && !AllSound(s.ctx.host, drafts) ==> r == Err(Unreadable))
      && (Clean(s.ctx.host, drafts) && !Clashes(s, drafts) && AllSound(s.ctx.host, drafts) ==>
            r.Ok? && GrownAs(s, drafts, r.value))
  {
    ReadySchema(s);
    if Clean(s.ctx.host, drafts) {
      DeclarationsParse(s.ctx.host, drafts);
      GrowChecks(s, drafts, SchemaFields(s).value);
    }
  }

  lemma GrowIs(s: Session, drafts: seq<KeyDraft>, fields: Config, source: Content)
    requires SchemaFields(s) == Ok(fields) && Clean(s.ctx.host, drafts)
    requires source == Stringify(Map(fields["keys" := Map(DeclaredKeys(fields) + Declarations(drafts))]))
    ensures Grow(s, drafts)
            == if !(Declarations(drafts).Keys !! DeclaredKeys(fields).Keys) then Err(AlreadyDeclared)
               else if ParseSchema(s.ctx.host, source).None? then Err(Unreadable)
               else Ok(Grown(source, ParseSchema(s.ctx.host, source).value.keys))
  {
  }

  lemma GrowChecks(s: Session, drafts: seq<KeyDraft>, fields: Config)
    requires s.schema.Some? && SchemaFields(s) == Ok(fields) && Clean(s.ctx.host, drafts)
    requires ParseSchema(s.ctx.host, Stringify(Map(fields))) == s.schema
    requires ParseKeys(s.ctx.host, DeclaredKeys(fields)) == Some(s.Keys())
    requires Declarations(drafts).Keys == NamesBefore(drafts, |drafts|)
    ensures Clashes(s, drafts) ==> Grow(s, drafts) == Err(AlreadyDeclared)
    ensures !Clashes(s, drafts) && !AllSound(s.ctx.host, drafts) ==> Grow(s, drafts) == Err(Unreadable)
    ensures !Clashes(s, drafts) && AllSound(s.ctx.host, drafts) ==>
              Grow(s, drafts).Ok? && GrownAs(s, drafts, Grow(s, drafts).value)
  {
    var source := Stringify(Map(fields["keys" := Map(DeclaredKeys(fields) + Declarations(drafts))]));
    ClashIff(s, drafts, DeclaredKeys(fields), Declarations(drafts));
    GrowIs(s, drafts, fields, source);
    if !Clashes(s, drafts) {
      GrownReads(s, drafts, fields, source);
    }
  }

  lemma GrownReads(s: Session, drafts: seq<KeyDraft>, fields: Config, source: Content)
    requires s.schema.Some? && Clean(s.ctx.host, drafts)
    requires ParseSchema(s.ctx.host, Stringify(Map(fields))) == s.schema
    requires ParseKeys(s.ctx.host, DeclaredKeys(fields)) == Some(s.Keys())
    requires Declarations(drafts).Keys !! DeclaredKeys(fields).Keys
    requires source == Stringify(Map(fields["keys" := Map(DeclaredKeys(fields) + Declarations(drafts))]))
    ensures
      var r := ParseSchema(s.ctx.host, source);
      (r.Some? <==> AllSound(s.ctx.host, drafts)) && (r.Some? ==> GrownAs(s, drafts, Grown(source, r.value.keys)))
  {
    GrownParses(s.ctx.host, fields, s.Keys(), s.schema.value.retiring, drafts);
  }

  ghost predicate GrownAs(s: Session, drafts: seq<KeyDraft>, grown: Grown)
    requires s.schema.Some?
  {
    && Extends(grown.keys, s.Keys(), drafts)
    && ParseSchema(s.ctx.host, grown.source) == Some(Schema(grown.keys, s.schema.value.retiring))
  }

  lemma ClashIff(s: Session, drafts: seq<KeyDraft>, was: Config, added: Config)
    requires was.Keys == s.Keys().Keys && added.Keys == NamesBefore(drafts, |drafts|)
    ensures Clashes(s, drafts) <==> !(added.Keys !! was.Keys)
  {
    if k :| k in added && k in was {
      var i: nat :| i < |drafts| && NameOf(drafts[i]) == k;
    }
    forall i | 0 <= i < |drafts| ensures NameOf(drafts[i]) in added {
    }
  }

  // ---- laying the defaults ----

  /** The defaults are new keys, permitted by what they were drafted as, and no secrets. */
  lemma DefaultsPermitted(host: Host, keys: Keys, grown: Keys, drafts: seq<KeyDraft>)
    requires Clean(host, drafts) && AllSound(host, drafts) && Extends(grown, keys, drafts)
    requires forall i :: 0 <= i < |drafts| ==> NameOf(drafts[i]) !in keys
    ensures forall k :: k in DraftDefaults(drafts) ==>
              k !in keys && k in grown && Permits(host, grown[k], DraftDefaults(drafts)[k]) && !grown[k].secret
    ensures DraftDefaults(drafts).Keys !! METADATA
    ensures HoldsDefaults(DraftDefaults(drafts), drafts)
  {
    CleanNamesDiffer(host, drafts);
    DefaultsHeld(drafts);
    DefaultsAreNew(host, drafts);
    var values := DraftDefaults(drafts);
    forall k | k in values
      ensures k !in keys && k in grown && Permits(host, grown[k], values[k]) && !grown[k].secret
    {
      var i :| 0 <= i < |drafts| && NameOf(drafts[i]) == k;
      assert At(values, k) == Supplied(drafts[i]);
      SoundPermitted(host, drafts[i], NamesBefore(drafts, i));
    }
  }

  predicate NoneSupplied(drafts: seq<KeyDraft>) {
    forall i :: 0 <= i < |drafts| ==> Supplied(drafts[i]) == None
  }

  lemma NothingHeld(values: Config, drafts: seq<KeyDraft>)
    requires HoldsDefaults(values, drafts)
    ensures values == map[] <==> NoneSupplied(drafts)
  {
    if values != map[] {
      var k :| k in values;
      var i :| 0 <= i < |drafts| && NameOf(drafts[i]) == k;
      assert Supplied(drafts[i]) == Some(values[k]);
    }
  }

  /** A document that was valid is valid under the grown schema, with the defaults and without them. */
  lemma LaidAccepted(host: Host, keys: Keys, grown: Keys, config: Config, values: Config)
    requires Accepts(host, keys, config) && config.Keys !! METADATA && values.Keys !! METADATA
    requires forall k :: k in keys ==> k in grown && grown[k] == keys[k]
    requires forall k :: k in values ==> k !in keys && k in grown && Permits(host, grown[k], values[k]) && !grown[k].secret
    ensures Accepts(host, grown, config) && Accepts(host, grown, config + values)
    ensures config + values == config <==> values == map[]
  {
    if k :| k in values {
      assert k !in config && k in config + values;
    }
  }

  lemma SoundPermitted(host: Host, d: KeyDraft, seen: set<string>)
    requires Sound(host, d) && Supplied(d).Some? && forall flaw :: !Has(host, d, seen, flaw)
    ensures Permits(host, Asked(d), Supplied(d).value) && !Asked(d).secret
  {
    SoundDefault(host, d, seen);
  }

  lemma LaidStorable(host: Host, keys: Keys, grown: Keys, held: Config, values: Config)
    requires forall k :: k in ConfigOnly(held) ==> k in keys
    requires forall k :: k in keys ==> k in grown && grown[k] == keys[k]
    requires forall k :: k in values ==> k !in ConfigOnly(held) && k in grown && !grown[k].secret
    ensures Storable(host, grown, ConfigOnly(held) + values) <==> Storable(host, keys, held)
  {
    assert "version" in METADATA && "sops" in METADATA;
    var next := ConfigOnly(held) + values;
    if Storable(host, keys, held) {
      forall k | k in next && !IsMetadata(k) && k in grown && grown[k].secret ensures Hideable(host, k, next[k]) {
        assert k in held;
      }
    }
    if Storable(host, grown, next) {
      forall k | k in held && !IsMetadata(k) && k in keys && keys[k].secret ensures Hideable(host, k, held[k]) {
        assert k in ConfigOnly(held) && next[k] == held[k];
      }
    }
  }

  /** Every environment but the target is checked under the grown schema and left alone. */
  lemma {:induction false} LayDecides(s: Session, grown: Keys, edit: Edit, touched: seq<string>, envs: seq<string>)
    requires edit.Lay? && Listing(s, envs)
    requires forall e :: e in s.Environments() && e != edit.environment ==>
               Document(s, e).Ok? && Accepts(s.ctx.host, grown, ConfigOnly(Document(s, e).value))
    ensures
      var r := RewriteAll(s, grown, edit, touched, envs);
      if edit.environment in envs then r == Rewrite(s, grown, edit, touched, edit.environment) else r == Ok([])
    decreases |envs|
  {
    if envs != [] {
      ListingTail(s, envs);
      LayDecides(s, grown, edit, touched, envs[1..]);
      assert envs == [envs[0]] + envs[1..];
      if envs[0] != edit.environment {
        var rest := RewriteAll(s, grown, edit, touched, envs[1..]);
        assert Rewrite(s, grown, edit, touched, envs[0]) == Ok([]);
        assert rest.Ok? ==> [] + rest.value == rest.value;
      } else {
        assert edit.environment !in envs[1..];
        var own := Rewrite(s, grown, edit, touched, envs[0]);
        assert own.Ok? ==> own.value + [] == own.value;
      }
    }
  }

  // ---- additions ----

  /** What is wrong with an addition before its values are stored, in the order it is checked. */
  ghost function AdditionRefusal(s: Session, e: string, drafts: seq<KeyDraft>, expected: Expected): Option<Refusal> {
    if !Known(s) then Some(UnknownProduct)
    else if s.order == [] || s.order[0] != Str(e) then Some(NotLowest)
    else if drafts == [] then Some(NothingAdded)
    else if !Clean(s.ctx.host, drafts) then Some(InvalidDrafts)
    else if Clashes(s, drafts) then Some(AlreadyDeclared)
    else if !AllSound(s.ctx.host, drafts) then Some(Unreadable)
    else if ConfigYaml(s.service, e) !in s.files then Some(NoFile)
    else if expected.Some? && expected.value != EtagAt(s.files, ConfigYaml(s.service, e)) then Some(FileChanged)
    else if NoneSupplied(drafts) then None
    else if VersionOf(Held(s, s.files, e)) >= MAX_SAFE_INTEGER then Some(VersionExhausted)
    else if !Storable(s.ctx.host, s.Keys(), Held(s, s.files, e)) then Some(NotEncrypted)
    else None
  }

  lemma OthersPass(s: Session, grown: Keys, e: string)
    requires Ready(s) && s.schema.Some? && e in s.Environments()
    requires forall k :: k in s.Keys() ==> k in grown && grown[k] == s.Keys()[k]
    ensures Document(s, e) == Ok(Held(s, s.files, e)) && Accepts(s.ctx.host, s.Keys(), ConfigOnly(Held(s, s.files, e)))
    ensures Accepts(s.ctx.host, grown, ConfigOnly(Held(s, s.files, e)))
  {
    ReadySchema(s);
    assert s.Home(e) in s.files;
    StoredDocument(s, e);
  }

  lemma LayRewrites(s: Session, e: string, values: Config, expected: Expected, grown: Keys, touched: seq<string>,
                    current: Config)
    requires Document(s, e) == Ok(current) && Accepts(s.ctx.host, grown, ConfigOnly(current) + values)
    ensures
      var r := Rewrite(s, grown, Lay(e, values, expected), touched, e);
      && (expected.Some? && expected.value != EtagAt(s.files, s.Home(e)) ==> r == Err(FileChanged))
      && ((expected.Some? ==> expected.value == EtagAt(s.files, s.Home(e))) ==>
            r == if ConfigOnly(current) + values == ConfigOnly(current) then Ok([])
                 else Rewritten(s, e, current, ConfigOnly(current) + values, grown, touched))
  {
  }

  /** The target's own rewrite: refused for a file that has moved on, its counter, or a secret in the clear. */
  ghost predicate LayOutcome(s: Session, e: string, drafts: seq<KeyDraft>, expected: Expected, r: Result<seq<Write>, Refusal>) {
    if expected.Some? && expected.value != EtagAt(s.files, ConfigYaml(s.service, e)) then r == Err(FileChanged)
    else if NoneSupplied(drafts) then r == Ok([])
    else if VersionOf(Held(s, s.files, e)) >= MAX_SAFE_INTEGER then r == Err(VersionExhausted)
    else if !Storable(s.ctx.host, s.Keys(), Held(s, s.files, e)) then r == Err(NotEncrypted)
    else r.Ok?
  }

  lemma LaidDecides(s: Session, e: string, drafts: seq<KeyDraft>, expected: Expected, grown: Keys, touched: seq<string>)
    requires Document(s, e) == Ok(Held(s, s.files, e)) && Accepts(s.ctx.host, s.Keys(), ConfigOnly(Held(s, s.files, e)))
    requires Clean(s.ctx.host, drafts) && AllSound(s.ctx.host, drafts) && !Clashes(s, drafts)
    requires Extends(grown, s.Keys(), drafts)
    ensures LayOutcome(s, e, drafts, expected, Rewrite(s, grown, Lay(e, DraftDefaults(drafts), expected), touched, e))
  {
    var host, current, values := s.ctx.host, Held(s, s.files, e), DraftDefaults(drafts);
    DefaultsPermitted(host, s.Keys(), grown, drafts);
    NothingHeld(values, drafts);
    LaidStorable(host, s.Keys(), grown, current, values);
    StoredLaid(s, e, current, values, grown);
    LayRewrites(s, e, values, expected, grown, touched, current);
    RewrittenIff(s, e, current, ConfigOnly(current) + values, grown, touched);
  }

  lemma StoredLaid(s: Session, e: string, current: Config, values: Config, grown: Keys)
    requires Accepts(s.ctx.host, s.Keys(), ConfigOnly(current)) && values.Keys !! METADATA
    requires forall k :: k in s.Keys() ==> k in grown && grown[k] == s.Keys()[k]
    requires forall k :: k in values ==>
               k !in s.Keys() && k in grown && Permits(s.ctx.host, grown[k], values[k]) && !grown[k].secret
    ensures Accepts(s.ctx.host, grown, ConfigOnly(current) + values)
    ensures (ConfigOnly(current) + values).Keys !! METADATA
    ensures ConfigOnly(current) + values == ConfigOnly(current) <==> values == map[]
  {
    LaidAccepted(s.ctx.host, s.Keys(), grown, ConfigOnly(current), values);
  }

  lemma AddRefuses(s: Session, e: string, drafts: seq<KeyDraft>, expected: Expected)
    ensures
      var r := AddKeys(s, e, drafts, expected);
      && (RequireProduct(s).Err? ==> r == Err(RequireProduct(s).error))
      && (RequireProduct(s).Ok? ==>
            && (s.order == [] || s.order[0] != Str(e) ==> r == Err(NotLowest))
            && (s.order != [] && s.order[0] == Str(e) ==>
                  && (drafts == [] ==> r == Err(NothingAdded))
                  && (drafts != [] && Grow(s, drafts).Err? ==> r == Err(Grow(s, drafts).error))
                  && (drafts != [] && Grow(s, drafts).Ok? && s.Home(e) !in s.files ==> r == Err(NoFile))
                  && (drafts != [] && Grow(s, drafts).Ok? && s.Home(e) in s.files ==>
                        var writes := RewriteAll(s, Grow(s, drafts).value.keys, Lay(e, DraftDefaults(drafts), expected),
                                                 NamesOf(drafts), Listed(s.Environments()));
                        (writes.Err? ==> r == Err(writes.error)) && (writes.Ok? ==> r.Ok?))))
  {
  }

  /**
   * Adding keys, decided: past the request itself, and the file being the one the editor saw, only the
   * target's own counter or an older secret can stand in the way. It never fails validation.
   */
  lemma AddDecides(s: Session, e: string, drafts: seq<KeyDraft>, expected: Expected)
    requires Ready(s)
    ensures
      var r, refusal := AddKeys(s, e, drafts, expected), AdditionRefusal(s, e, drafts, expected);
      (refusal.Some? ==> r == Err(refusal.value)) && (refusal.None? ==> r.Ok?)
  {
    KnownIff(s);
    AddRefuses(s, e, drafts, expected);
    if Known(s) {
      GrowDecides(s, drafts);
      var grown := Grow(s, drafts);
      if grown.Ok? && s.Home(e) in s.files {
        AddLays(s, e, drafts, expected, grown.value.keys);
        AddFolds(s, e, drafts, expected, RewriteAll(s, grown.value.keys, Lay(e, DraftDefaults(drafts), expected),
                                                    NamesOf(drafts), Listed(s.Environments())));
      }
    }
  }

  lemma AddFolds(s: Session, e: string, drafts: seq<KeyDraft>, expected: Expected, writes: Result<seq<Write>, Refusal>)
    requires LayOutcome(s, e, drafts, expected, writes)
    requires Known(s) && Clean(s.ctx.host, drafts) && AllSound(s.ctx.host, drafts) && !Clashes(s, drafts)
    requires s.Home(e) in s.files
    ensures s.order != [] && s.order[0] == Str(e) && drafts != [] ==>
              AdditionRefusal(s, e, drafts, expected) == if writes.Err? then Some(writes.error) else None
  {
  }

  lemma AddLays(s: Session, e: string, drafts: seq<KeyDraft>, expected: Expected, grown: Keys)
    requires Ready(s) && s.schema.Some? && s.Home(e) in s.files
    requires Clean(s.ctx.host, drafts) && AllSound(s.ctx.host, drafts) && !Clashes(s, drafts)
    requires Extends(grown, s.Keys(), drafts)
    ensures
      var edit := Lay(e, DraftDefaults(drafts), expected);
      var r := RewriteAll(s, grown, edit, NamesOf(drafts), Listed(s.Environments()));
      r == Rewrite(s, grown, edit, NamesOf(drafts), e) && LayOutcome(s, e, drafts, expected, r)
  {
    var envs := Listed(s.Environments());
    assert forall i :: 0 <= i < |envs| ==> envs[i] in envs;
    assert e in s.Environments();
    forall other | other in s.Environments()
      ensures Document(s, other) == Ok(Held(s, s.files, other))
      ensures Accepts(s.ctx.host, grown, ConfigOnly(Held(s, s.files, other)))
    {
      OthersPass(s, grown, other);
    }
    LayDecides(s, grown, Lay(e, DraftDefaults(drafts), expected), NamesOf(drafts), envs);
    OthersPass(s, grown, e);
    LaidDecides(s, e, drafts, expected, grown, NamesOf(drafts));
  }

  // ---- what an addition leaves behind ----

  /** The audit names exactly the drafted keys, in the order of the form. */
  ghost predicate Audits(w: Write, drafts: seq<KeyDraft>) {
    |w.keys| == |drafts| && forall i :: 0 <= i < |drafts| ==> w.keys[i] == NameOf(drafts[i])
  }

  /** The schema defines the drafted keys beside its own, and is otherwise as it was. */
  ghost predicate Grew(s: Session, after: Files, drafts: seq<KeyDraft>) {
    && s.schema.Some? && SchemaYaml(s.service) in after && ParseSchema(s.ctx.host, after[SchemaYaml(s.service)]).Some?
    && Extends(ParseSchema(s.ctx.host, after[SchemaYaml(s.service)]).value.keys, s.Keys(), drafts)
    && ParseSchema(s.ctx.host, after[SchemaYaml(s.service)]).value.retiring == s.schema.value.retiring
  }

  /** What an accepted addition has checked, and what it writes. */
  lemma AddWrites(s: Session, e: string, drafts: seq<KeyDraft>, expected: Expected)
    requires Ready(s) && AddKeys(s, e, drafts, expected).Ok?
    ensures s.schema.Some? && Grow(s, drafts).Ok? && s.Home(e) in s.files
    ensures Clean(s.ctx.host, drafts) && AllSound(s.ctx.host, drafts) && !Clashes(s, drafts)
    ensures
      var grown := Grow(s, drafts).value;
      var first := Rewrite(s, grown.keys, Lay(e, DraftDefaults(drafts), expected), NamesOf(drafts), e);
      && Extends(grown.keys, s.Keys(), drafts)
      && ParseSchema(s.ctx.host, grown.source) == Some(Schema(grown.keys, s.schema.value.retiring))
      && first.Ok?
      && AddKeys(s, e, drafts, expected).value.writes
         == first.value + [Write(SchemaYaml(s.service), Some(grown.source), NamesOf(drafts))]
  {
    KnownIff(s);
    AddRefuses(s, e, drafts, expected);
    GrowDecides(s, drafts);
    AddParts(s, e, drafts, expected);
  }

  /** The tree after an addition, its schema and its target apart from the rest. */
  ghost predicate Landed(s: Session, e: string, values: Config, names: seq<string>, source: Content, writes: seq<Write>) {
    var after := Applied(s.files, writes);
    && Peek(after, SchemaYaml(s.service)) == Some(source)
    && SteppedTo(s, s.files, after, e, ConfigOnly(Held(s, s.files, e)) + values)
    && (forall p :: p != SchemaYaml(s.service) && p != s.Home(e) ==> Peek(after, p) == Peek(s.files, p))
    && (forall i :: 0 <= i < |writes| ==> writes[i].keys == names)
  }

  /**
   * The schema has the drafted keys beside its own, the environment their defaults beside its own
   * values, and every other file is as it was.
   */
  ghost predicate Added(s: Session, e: string, drafts: seq<KeyDraft>, writes: seq<Write>) {
    var after := Applied(s.files, writes);
    && Grew(s, after, drafts)
    && (exists values :: HoldsDefaults(values, drafts)
                         && SteppedTo(s, s.files, after, e, ConfigOnly(Held(s, s.files, e)) + values))
    && (forall p :: p != SchemaYaml(s.service) && p != s.Home(e) ==> Peek(after, p) == Peek(s.files, p))
    && (forall i :: 0 <= i < |writes| ==> Audits(writes[i], drafts))
  }

  lemma LandedIsAdded(s: Session, e: string, drafts: seq<KeyDraft>, values: Config, grown: Grown, writes: seq<Write>)
    requires Landed(s, e, values, NamesOf(drafts), grown.source, writes) && HoldsDefaults(values, drafts)
    requires s.schema.Some? && Extends(grown.keys, s.Keys(), drafts)
    requires ParseSchema(s.ctx.host, grown.source) == Some(Schema(grown.keys, s.schema.value.retiring))
    ensures Added(s, e, drafts, writes)
  {
    GrewIs(s, Applied(s.files, writes), drafts, grown);
    forall i | 0 <= i < |writes| ensures Audits(writes[i], drafts) {
      assert writes[i].keys == NamesOf(drafts);
    }
  }

  lemma GrewIs(s: Session, after: Files, drafts: seq<KeyDraft>, grown: Grown)
    requires Peek(after, SchemaYaml(s.service)) == Some(grown.source) && s.schema.Some?
    requires Extends(grown.keys, s.Keys(), drafts)
    requires ParseSchema(s.ctx.host, grown.source) == Some(Schema(grown.keys, s.schema.value.retiring))
    ensures Grew(s, after, drafts)
  {
  }

  /** What an accepted addition leaves behind. */
  lemma AddEffect(s: Session, e: string, drafts: seq<KeyDraft>, expected: Expected)
    requires Ready(s) && AddKeys(s, e, drafts, expected).Ok?
    ensures Added(s, e, drafts, AddKeys(s, e, drafts, expected).value.writes)
  {
    AddWrites(s, e, drafts, expected);
    var grown := Grow(s, drafts).value;
    OthersPass(s, grown.keys, e);
    AddLanded(s, e, drafts, expected, grown);
    LandedIsAdded(s, e, drafts, DraftDefaults(drafts), grown, AddKeys(s, e, drafts, expected).value.writes);
  }

  lemma AddLanded(s: Session, e: string, drafts: seq<KeyDraft>, expected: Expected, grown: Grown)
    requires Document(s, e) == Ok(Held(s, s.files, e)) && s.Home(e) in s.files
    requires Accepts(s.ctx.host, s.Keys(), ConfigOnly(Held(s, s.files, e)))
    requires Clean(s.ctx.host, drafts) && AllSound(s.ctx.host, drafts) && !Clashes(s, drafts)
    requires Extends(grown.keys, s.Keys(), drafts)
    requires Rewrite(s, grown.keys, Lay(e, DraftDefaults(drafts), expected), NamesOf(drafts), e).Ok?
    ensures HoldsDefaults(DraftDefaults(drafts), drafts)
    ensures Landed(s, e, DraftDefaults(drafts), NamesOf(drafts), grown.source,
                   Rewrite(s, grown.keys, Lay(e, DraftDefaults(drafts), expected), NamesOf(drafts), e).value
                   + [Write(SchemaYaml(s.service), Some(grown.source), NamesOf(drafts))])
  {
    DefaultsPermitted(s.ctx.host, s.Keys(), grown.keys, drafts);
    StoredLaid(s, e, Held(s, s.files, e), DraftDefaults(drafts), grown.keys);
    LaidLands(s, e, DraftDefaults(drafts), expected, NamesOf(drafts), grown);
  }

  lemma LaidLands(s: Session, e: string, values: Config, expected: Expected, names: seq<string>, grown: Grown)
    requires Document(s, e) == Ok(Held(s, s.files, e))
    requires Accepts(s.ctx.host, grown.keys, ConfigOnly(Held(s, s.files, e)) + values)
    requires (ConfigOnly(Held(s, s.files, e)) + values).Keys !! METADATA && s.Home(e) in s.files
    requires Rewrite(s, grown.keys, Lay(e, values, expected), names, e).Ok?
    ensures Landed(s, e, values, names, grown.source,
                   Rewrite(s, grown.keys, Lay(e, values, expected), names, e).value
                   + [Write(SchemaYaml(s.service), Some(grown.source), names)])
  {
    var edit, current := Lay(e, values, expected), Held(s, s.files, e);
    var first := Rewrite(s, grown.keys, edit, names, e).value;
    var last := Write(SchemaYaml(s.service), Some(grown.source), names);
    var middle := Applied(s.files, first);
    RewriteOnly(s, s.files, grown.keys, edit, names, e);
    AppliedConcat(s.files, first, [last]);
    AppliedOne(middle, last);
    var after := Applied(s.files, first + [last]);
    assert Peek(after, s.Home(e)) == Peek(middle, s.Home(e));
    LayRewrites(s, e, values, expected, grown.keys, names, current);
    var next := ConfigOnly(current) + values;
    if next != ConfigOnly(current) {
      RewrittenSteps(s, s.files, after, e, current, next, grown.keys, names);
    }
  }

  // ---- deletions ----

  /** Taking the keys out of one environment: nothing to do, or something its counter and secrets allow. */
  ghost predicate Droppable(s: Session, e: string, selected: seq<string>) {
    var held := Held(s, s.files, e);
    (forall k :: k in selected ==> k in held ==> IsMetadata(k))
    || (VersionOf(held) < MAX_SAFE_INTEGER
        && forall k :: k in held && k !in selected && !IsMetadata(k) && s.IsSecret(k) ==> Hideable(s.ctx.host, k, held[k]))
  }

  /** Why not, if it is not. */
  ghost function DropRefused(s: Session, e: string): Refusal {
    if VersionOf(Held(s, s.files, e)) >= MAX_SAFE_INTEGER then VersionExhausted else NotEncrypted
  }

  lemma DropUnchanged(held: Config, selected: seq<string>)
    ensures ConfigOnly(held) - Dropped(selected) == ConfigOnly(held)
            <==> forall k :: k in selected ==> k in held ==> IsMetadata(k)
  {
    assert "version" in METADATA && "sops" in METADATA;
    if k :| k in selected && k in held && !IsMetadata(k) {
      assert k in ConfigOnly(held) && k !in ConfigOnly(held) - Dropped(selected);
    }
  }

  lemma DropStorable(s: Session, held: Config, selected: seq<string>)
    ensures Storable(s.ctx.host, s.Keys() - Dropped(selected), ConfigOnly(held) - Dropped(selected))
            <==> forall k :: k in held && k !in selected && !IsMetadata(k) && s.IsSecret(k) ==> Hideable(s.ctx.host, k, held[k])
  {
    assert "version" in METADATA && "sops" in METADATA;
    var next, fewer := ConfigOnly(held) - Dropped(selected), s.Keys() - Dropped(selected);
    forall k ensures (k in next && !IsMetadata(k) && k in fewer && fewer[k].secret)
                     <==> (k in held && k !in selected && !IsMetadata(k) && s.IsSecret(k)) {
      assert k in Dropped(selected) <==> k in selected;
    }
  }

  lemma DropDecides(s: Session, e: string, selected: seq<string>, touched: seq<string>)
    requires Document(s, e) == Ok(Held(s, s.files, e))
    requires Accepts(s.ctx.host, s.Keys(), ConfigOnly(Held(s, s.files, e)))
    ensures
      var r := Rewrite(s, s.Keys() - Dropped(selected), Drop(selected), touched, e);
      (r.Ok? <==> Droppable(s, e, selected)) && (r.Err? ==> r == Err(DropRefused(s, e)))
  {
    var held, fewer := Held(s, s.files, e), s.Keys() - Dropped(selected);
    AcceptsFewer(s.ctx.host, s.Keys(), ConfigOnly(held), Dropped(selected));
    DropUnchanged(held, selected);
    DropStorable(s, held, selected);
    RewrittenIff(s, e, held, ConfigOnly(held) - Dropped(selected), fewer, touched);
  }

  lemma {:induction false} DropsDecide(s: Session, selected: seq<string>, touched: seq<string>, envs: seq<string>)
    requires Listing(s, envs)
    requires forall e :: e in s.Environments() ==>
               Document(s, e) == Ok(Held(s, s.files, e)) && Accepts(s.ctx.host, s.Keys(), ConfigOnly(Held(s, s.files, e)))
    ensures
      var r := RewriteAll(s, s.Keys() - Dropped(selected), Drop(selected), touched, envs);
      && (r.Ok? <==> forall i :: 0 <= i < |envs| ==> Droppable(s, envs[i], selected))
      && (r.Err? ==> exists i :: 0 <= i < |envs| && !Droppable(s, envs[i], selected) && r.error == DropRefused(s, envs[i]))
    decreases |envs|
  {
    if envs != [] {
      ListingTail(s, envs);
      DropDecides(s, envs[0], selected, touched);
      DropsDecide(s, selected, touched, envs[1..]);
      assert forall i :: 0 < i < |envs| ==> envs[i] == envs[1..][i - 1];
      var rest := RewriteAll(s, s.Keys() - Dropped(selected), Drop(selected), touched, envs[1..]);
      if Droppable(s, envs[0], selected) && rest.Err? {
        var i :| 0 <= i < |envs[1..]| && !Droppable(s, envs[1..][i], selected) && rest.error == DropRefused(s, envs[1..][i]);
        assert envs[i + 1] == envs[1..][i];
      }
    }
  }

  /** What of a deletion's request is wrong, in the order it is checked. */
  ghost function DeletionRefusal(s: Session, selected: seq<string>, expected: Option<Files>): Option<Refusal> {
    if expected.Some? && expected.value != ProductBase(s.files, s.service) then Some(ProductChanged)
    else if !Known(s) then Some(UnknownProduct)
    else if selected == [] then Some(NothingSelected)
    else if exists k :: k in selected && k !in s.Keys() then Some(UnknownKey)
    else None
  }

  /**
   * Deleting keys, decided: past the request itself, it is refused exactly if some environment that
   * holds one of the keys cannot be stored again. It never leaves a document its schema refuses.
   */
  lemma DeleteDecides(s: Session, selected: seq<string>, expected: Option<Files>)
    requires Ready(s)
    ensures
      var r, refusal := DeleteKeys(s, selected, expected), DeletionRefusal(s, selected, expected);
      && (refusal.Some? ==> r == Err(refusal.value))
      && (refusal.None? ==>
            && (r.Ok? <==> forall e :: e in s.Environments() ==> Droppable(s, e, selected))
            && (r.Err? ==> exists e :: e in s.Environments() && !Droppable(s, e, selected) && r.error == DropRefused(s, e)))
  {
    KnownIff(s);
    SelectIff(s, selected);
    DeleteRefuses(s, selected, expected);
    if Known(s) && Select(s, selected).Ok? {
      var keys := Select(s, selected).value;
      assert Dropped(keys) == Dropped(selected);
      DeleteDrops(s, selected, keys);
    }
  }

  lemma DeleteRefuses(s: Session, selected: seq<string>, expected: Option<Files>)
    ensures
      var r, keys := DeleteKeys(s, selected, expected), Select(s, selected);
      && (expected.Some? && expected.value != ProductBase(s.files, s.service) ==> r == Err(ProductChanged))
      && ((expected.Some? ==> expected.value == ProductBase(s.files, s.service)) ==>
            && (RequireProduct(s).Err? ==> r == Err(RequireProduct(s).error))
            && (RequireProduct(s).Ok? && keys.Err? ==> r == Err(keys.error))
            && (RequireProduct(s).Ok? && keys.Ok? && SchemaFields(s).Ok? ==>
                  var fields := SchemaFields(s).value;
                  var left := DeclaredKeys(fields) - (set k | k in keys.value);
                  var candidate := ParseSchema(s.ctx.host, Stringify(Map(fields["keys" := Map(left)])));
                  candidate.Some? ==>
                    var writes := RewriteAll(s, candidate.value.keys, Drop(keys.value), keys.value, Listed(s.Environments()));
                    (writes.Err? ==> r == Err(writes.error)) && (writes.Ok? ==> r.Ok?)))
  {
  }

  lemma DeleteDrops(s: Session, selected: seq<string>, keys: seq<string>)
    requires Ready(s) && s.schema.Some? && Dropped(keys) == Dropped(selected)
    ensures
      var fields := SchemaFields(s).value;
      var source := Stringify(Map(fields["keys" := Map(DeclaredKeys(fields) - (set k | k in keys))]));
      var r := RewriteAll(s, s.Keys() - Dropped(keys), Drop(keys), keys, Listed(s.Environments()));
      && SchemaFields(s).Ok?
      && ParseSchema(s.ctx.host, source) == Some(Schema(s.Keys() - Dropped(keys), s.schema.value.retiring))
      && (r.Ok? <==> forall e :: e in s.Environments() ==> Droppable(s, e, selected))
      && (r.Err? ==> exists e :: e in s.Environments() && !Droppable(s, e, selected) && r.error == DropRefused(s, e))
  {
    var envs := Listed(s.Environments());
    ReadySchema(s);
    ShrunkSchema(s, keys);
    forall e | e in s.Environments()
      ensures Document(s, e) == Ok(Held(s, s.files, e)) && Accepts(s.ctx.host, s.Keys(), ConfigOnly(Held(s, s.files, e)))
    {
      OthersPass(s, s.Keys(), e);
    }
    assert forall i :: 0 <= i < |envs| ==> envs[i] in envs;
    DropsDecide(s, keys, keys, envs);
    forall e ensures Droppable(s, e, keys) <==> Droppable(s, e, selected) {
      assert forall k :: k in keys <==> k in Dropped(keys);
      assert forall k :: k in selected <==> k in Dropped(selected);
    }
  }

  // ---- on any tree ----

  /** What an edit leaves of a document, under the schema the edit leaves. */
  predicate Passes(s: Session, keys: Keys, edit: Edit, e: string) {
    && Document(s, e).Ok?
    && Accepts(s.ctx.host, keys,
               match edit
               case Drop(dropped) => ConfigOnly(Document(s, e).value) - Dropped(dropped)
               case Lay(target, values, _) => ConfigOnly(Document(s, e).value) + if e == target then values else map[])
  }

  lemma RewritePasses(s: Session, keys: Keys, edit: Edit, touched: seq<string>, e: string)
    ensures Rewrite(s, keys, edit, touched, e).Ok? ==> Passes(s, keys, edit, e)
    ensures Rewrite(s, keys, edit, touched, e) == Err(Orphans) ==> edit.Drop? && Document(s, e).Ok? && !Passes(s, keys, edit, e)
  {
    if edit.Lay? && e != edit.environment && Document(s, e).Ok? {
      assert ConfigOnly(Document(s, e).value) + map[] == ConfigOnly(Document(s, e).value);
    }
  }

  lemma {:induction false} RewriteAllPasses(s: Session, keys: Keys, edit: Edit, touched: seq<string>, envs: seq<string>)
    ensures RewriteAll(s, keys, edit, touched, envs).Ok? ==> forall e :: e in envs ==> Passes(s, keys, edit, e)
    ensures RewriteAll(s, keys, edit, touched, envs) == Err(Orphans) ==>
              exists e :: e in envs && Document(s, e).Ok? && !Passes(s, keys, edit, e)
    decreases |envs|
  {
    if envs != [] {
      RewritePasses(s, keys, edit, touched, envs[0]);
      RewriteAllPasses(s, keys, edit, touched, envs[1..]);
      assert envs == [envs[0]] + envs[1..];
    }
  }

  /**
   * Even on a tree that was not in order, a change of keys is let through only if every document of the
   * product passes the schema it leaves; a deletion that is refused for orphans would have left one.
   */
  lemma KeyEditsRevalidate(s: Session, op: Operation)
    requires op.AddOp? || op.DeleteOp?
    ensures Act(s, op).Ok? ==> Revalidated(s, op)
    ensures Act(s, op) == Err(Orphans) ==> op.DeleteOp? && LeavesOrphan(s, op)
  {
    match op
    case AddOp(environment, drafts, expected) => AdditionPasses(s, environment, drafts, expected);
    case DeleteOp(selected, expected) => DeletionPasses(s, selected, expected);
  }

  /** The accepted operation's last write is a schema with these keys. */
  ghost predicate SchemaLeft(s: Session, op: Operation, keys: Keys)
    requires Act(s, op).Ok?
  {
    var writes := Act(s, op).value.writes;
    && writes != [] && writes[|writes| - 1].path == SchemaYaml(s.service) && writes[|writes| - 1].content.Some?
    && ParseSchema(s.ctx.host, writes[|writes| - 1].content.value).Some?
    && ParseSchema(s.ctx.host, writes[|writes| - 1].content.value).value.keys == keys
  }

  /** Every document of the product passes the schema the operation leaves. */
  ghost predicate Revalidated(s: Session, op: Operation)
    requires Act(s, op).Ok?
  {
    exists keys, edit ::
      SchemaLeft(s, op, keys) && Asks(op, edit) && forall e :: e in s.Environments() ==> Passes(s, keys, edit, e)
  }

  /** Some document of the product would be left with values its schema refuses. */
  ghost predicate LeavesOrphan(s: Session, op: Operation) {
    exists keys, edit, e ::
      Asks(op, edit) && e in s.Environments() && Document(s, e).Ok? && !Passes(s, keys, edit, e)
  }

  ghost predicate Asks(op: Operation, edit: Edit) {
    match op
    case AddOp(environment, drafts, _) => edit.Lay? && edit.environment == environment && edit.values == DraftDefaults(drafts)
    case DeleteOp(selected, _) => edit.Drop? && Dropped(edit.keys) == Dropped(selected)
    case _ => false
  }

  lemma AdditionPasses(s: Session, e: string, drafts: seq<KeyDraft>, expected: Expected)
    ensures
      var op := AddOp(e, drafts, expected);
      Act(s, op) != Err(Orphans) && (Act(s, op).Ok? ==> Revalidated(s, op))
  {
    AdditionNotOrphans(s, e, drafts, expected);
    var op, edit := AddOp(e, drafts, expected), Lay(e, DraftDefaults(drafts), expected);
    if Act(s, op).Ok? {
      AdditionLeaves(s, e, drafts, expected);
      var keys := Grow(s, drafts).value.keys;
      RewriteAllPasses(s, keys, edit, NamesOf(drafts), Listed(s.Environments()));
      assert Asks(op, edit);
    }
  }

  lemma AdditionNotOrphans(s: Session, e: string, drafts: seq<KeyDraft>, expected: Expected)
    ensures AddKeys(s, e, drafts, expected) != Err(Orphans)
  {
    AddRefuses(s, e, drafts, expected);
    if Grow(s, drafts).Ok? {
      NeverOrphans(s, Grow(s, drafts).value.keys, Lay(e, DraftDefaults(drafts), expected), NamesOf(drafts),
                   Listed(s.Environments()));
    }
  }

  lemma AdditionLeaves(s: Session, e: string, drafts: seq<KeyDraft>, expected: Expected)
    requires AddKeys(s, e, drafts, expected).Ok?
    ensures Grow(s, drafts).Ok? && SchemaLeft(s, AddOp(e, drafts, expected), Grow(s, drafts).value.keys)
    ensures RewriteAll(s, Grow(s, drafts).value.keys, Lay(e, DraftDefaults(drafts), expected), NamesOf(drafts),
                       Listed(s.Environments())).Ok?
  {
  }

  lemma {:induction false} NeverOrphans(s: Session, keys: Keys, edit: Edit, touched: seq<string>, envs: seq<string>)
    requires edit.Lay?
    ensures RewriteAll(s, keys, edit, touched, envs) != Err(Orphans)
    decreases |envs|
  {
    if envs != [] {
      RewritePasses(s, keys, edit, touched, envs[0]);
      NeverOrphans(s, keys, edit, touched, envs[1..]);
    }
  }

  lemma DeletionPasses(s: Session, selected: seq<string>, expected: Option<Files>)
    ensures
      var op := DeleteOp(selected, expected);
      && (Act(s, op).Ok? ==> Revalidated(s, op))
      && (Act(s, op) == Err(Orphans) ==> LeavesOrphan(s, op))
  {
    var op, keys, fields := DeleteOp(selected, expected), Select(s, selected), SchemaFields(s);
    if keys.Ok? && fields.Ok? {
      var source := Stringify(Map(fields.value["keys" := Map(DeclaredKeys(fields.value) - (set k | k in keys.value))]));
      var candidate := ParseSchema(s.ctx.host, source);
      assert Asks(op, Drop(keys.value));
      if candidate.Some? {
        RewriteAllPasses(s, candidate.value.keys, Drop(keys.value), keys.value, Listed(s.Environments()));
        if Act(s, op).Ok? {
          assert SchemaLeft(s, op, candidate.value.keys);
        }
      }
    }
  }
}
