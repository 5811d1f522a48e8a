/** Adding keys: the finished write is consistent; the way there is so only when no default is written. */
module KeyAdditions {
  import opened Wrappers
  import opened Documents
  import opened Text
  import Storage
  import opened Requests
  import opened Schemas
  import opened Builder
  import opened Registry
  import opened Products
  import opened Consistency
  import opened Visibility
  import opened ProductSafety
  import opened KeyEdits

  lemma {:induction false} DefaultsAreNamed(drafts: seq<KeyDraft>, key: string)
    requires key in DraftDefaults(drafts)
    ensures exists i :: 0 <= i < |drafts| && NameOf(drafts[i]) == key
  {
    var init := drafts[..|drafts| - 1];
    if NameOf(drafts[|drafts| - 1]) != key {
      DefaultsAreNamed(init, key);
      var i :| 0 <= i < |init| && NameOf(init[i]) == key;
      assert NameOf(drafts[i]) == key;
    }
  }

  /** Defaults go under the new keys only, and those are no metadata. */
  lemma DefaultsAreNew(host: Host, drafts: seq<KeyDraft>)
    requires Clean(host, drafts)
    ensures DraftDefaults(drafts).Keys <= Declarations(drafts).Keys
    ensures DraftDefaults(drafts).Keys !! METADATA
  {
    assert drafts[..|drafts|] == drafts;
    CleanNamesDiffer(host, drafts);
    DeclaredNames(drafts, |drafts|);
    forall k | k in DraftDefaults(drafts) ensures k in Declarations(drafts) && k !in METADATA {
      DefaultsAreNamed(drafts, k);
      var i: nat :| i < |drafts| && NameOf(drafts[i]) == k;
      assert !Has(host, drafts[i], NamesBefore(drafts, i), ReservedName);
    }
  }

  function GrownSource(s: Session, drafts: seq<KeyDraft>): Content
    requires SchemaFields(s).Ok?
  {
    var fields := SchemaFields(s).value;
    Stringify(Map(fields["keys" := Map(DeclaredKeys(fields) + Declarations(drafts))]))
  }

  /** The schema an addition writes reads as the old keys beside the new. */
  lemma GrownSchema(s: Session, drafts: seq<KeyDraft>)
    requires Ready(s) && s.schema.Some? && ParseSchema(s.ctx.host, GrownSource(s, drafts)).Some?
    requires Declarations(drafts).Keys !! DeclaredKeys(SchemaFields(s).value).Keys
    ensures
      var grown := ParseSchema(s.ctx.host, GrownSource(s, drafts)).value.keys;
      && grown.Keys == s.Keys().Keys + Declarations(drafts).Keys
      && s.Keys().Keys !! Declarations(drafts).Keys
      && forall k :: k in s.Keys() ==> grown[k] == s.Keys()[k]
  {
    ReadySchema(s);
    var fields := SchemaFields(s).value;
    SchemaWithKeys(s.ctx.host, fields, DeclaredKeys(fields) + Declarations(drafts));
    ParseKeysSplit(s.ctx.host, DeclaredKeys(fields), Declarations(drafts));
  }

  // ---- only the named environment is rewritten ----

  lemma {:induction false} LaysOnce(s: Session, keys: Keys, edit: Edit, touched: seq<string>, envs: seq<string>)
    requires edit.Lay? && Listing(s, envs) && RewriteAll(s, keys, edit, touched, envs).Ok?
    ensures edit.environment !in envs ==> RewriteAll(s, keys, edit, touched, envs).value == []
    ensures edit.environment in envs ==>
              Rewrite(s, keys, edit, touched, edit.environment).Ok?
              && RewriteAll(s, keys, edit, touched, envs).value == Rewrite(s, keys, edit, touched, edit.environment).value
    decreases |envs|
  {
    if envs != [] {
      ListingTail(s, envs);
      LaysOnce(s, keys, edit, touched, envs[1..]);
      assert envs == [envs[0]] + envs[1..];
      if envs[0] == edit.environment {
        assert edit.environment !in envs[1..];
      } else {
        assert edit.environment in envs ==> edit.environment in envs[1..];
      }
    }
  }

  function GrownKeys(s: Session, drafts: seq<KeyDraft>): Keys
    requires SchemaFields(s).Ok? && ParseSchema(s.ctx.host, GrownSource(s, drafts)).Some?
  {
    ParseSchema(s.ctx.host, GrownSource(s, drafts)).value.keys
  }

  /** What an accepted addition has checked. */
  ghost predicate Addable(s: Session, environment: string, drafts: seq<KeyDraft>, expected: Expected) {
    && s.schema.Some? && Clean(s.ctx.host, drafts) && SchemaFields(s).Ok? && environment in s.Environments()
    && Declarations(drafts).Keys !! DeclaredKeys(SchemaFields(s).value).Keys
    && ParseSchema(s.ctx.host, GrownSource(s, drafts)).Some?
    && Rewrite(s, GrownKeys(s, drafts), Lay(environment, DraftDefaults(drafts), expected), NamesOf(drafts), environment).Ok?
  }

  /** The values it writes. */
  ghost function Laid(s: Session, environment: string, drafts: seq<KeyDraft>, expected: Expected): seq<Write>
    requires Addable(s, environment, drafts, expected)
  {
    Rewrite(s, GrownKeys(s, drafts), Lay(environment, DraftDefaults(drafts), expected), NamesOf(drafts), environment).value
  }

  function GrownWrite(s: Session, drafts: seq<KeyDraft>): Write
    requires SchemaFields(s).Ok?
  {
    Write(SchemaYaml(s.service), Some(GrownSource(s, drafts)), NamesOf(drafts))
  }

  lemma AddParts(s: Session, environment: string, drafts: seq<KeyDraft>, expected: Expected)
    requires AddKeys(s, environment, drafts, expected).Ok?
    ensures Addable(s, environment, drafts, expected)
    ensures AddKeys(s, environment, drafts, expected).value.writes
            == Laid(s, environment, drafts, expected) + [GrownWrite(s, drafts)]
  {
    var grown := GrownKeys(s, drafts);
    var envs := Listed(s.Environments());
    assert s.Home(environment) in s.files;
    assert environment in s.Environments();
    assert forall i :: 0 <= i < |envs| ==> envs[i] in envs;
    LaysOnce(s, grown, Lay(environment, DraftDefaults(drafts), expected), NamesOf(drafts), envs);
  }

  /** At most one environment's document, valid under the grown schema and foreign to the old one. */
  ghost predicate LaidWell(s: Session, e: string, values: Config, grown: Keys, writes: seq<Write>) {
    && (writes == [] <==> values == map[])
    && (writes != [] ==>
          && |writes| == 1 && writes[0].path == s.Home(e) && writes[0].content.Some?
          && DocumentOk(s.ctx.host, grown, writes[0].content.value)
          && !DocumentOk(s.ctx.host, s.Keys(), writes[0].content.value))
  }

  lemma LaidDocument(s: Session, environment: string, drafts: seq<KeyDraft>, expected: Expected)
    requires Ready(s) && Addable(s, environment, drafts, expected)
    ensures LaidWell(s, environment, DraftDefaults(drafts), GrownKeys(s, drafts), Laid(s, environment, drafts, expected))
  {
    ReadySchema(s);
    GrownSchema(s, drafts);
    DefaultsAreNew(s.ctx.host, drafts);
    StoredDocument(s, environment);
    LaidContent(s, environment, DraftDefaults(drafts), expected, GrownKeys(s, drafts), NamesOf(drafts));
  }

  lemma LaidContent(s: Session, e: string, values: Config, expected: Expected, grown: Keys, touched: seq<string>)
    requires Document(s, e).Ok? && Accepts(s.ctx.host, s.Keys(), ConfigOnly(Document(s, e).value))
    requires values.Keys !! METADATA && values.Keys !! s.Keys().Keys
    requires Rewrite(s, grown, Lay(e, values, expected), touched, e).Ok?
    ensures LaidWell(s, e, values, grown, Rewrite(s, grown, Lay(e, values, expected), touched, e).value)
  {
    var current := Document(s, e).value;
    var next := ConfigOnly(current) + values;
    if values == map[] {
      assert next == ConfigOnly(current);
    } else {
      var k :| k in values;
      assert k !in ConfigOnly(current) && k in next;
      RewrittenIsOk(s, e, current, next, grown, touched);
    }
  }

  // ---- the result, and the way there ----

  lemma OldDocumentsPass(s: Session, grown: Keys)
    requires Ready(s) && s.schema.Some? && s.Keys().Keys <= grown.Keys
    requires forall k :: k in s.Keys() ==> grown[k] == s.Keys()[k]
    ensures StoredPass(s.ctx.host, s.files, s.service, grown)
  {
    ReadySchema(s);
    forall p | p in s.files && IsConfigPath(p) && p.dir.service == s.service
      ensures Identifier(p.name) && DocumentOk(s.ctx.host, grown, s.files[p])
    {
      assert ConfigFileOk(s.ctx.host, s.files, p);
      OkUnderAgreeing(s.ctx.host, s.Keys(), grown, s.files[p]);
    }
  }

  lemma PutsCommute(files: Files, p: Path, c: Content, q: Path, d: Content)
    requires p != q
    ensures files[p := c][q := d] == files[q := d][p := c]
  {
  }

  /** An addition, once all of it has landed, leaves the tree consistent. */
  lemma AddConsistent(s: Session, environment: string, drafts: seq<KeyDraft>, expected: Expected)
    requires Ready(s) && AddKeys(s, environment, drafts, expected).Ok?
    ensures Consistent(s.ctx.host, Applied(s.files, AddKeys(s, environment, drafts, expected).value.writes))
  {
    AddParts(s, environment, drafts, expected);
    GrownTree(s, environment, drafts, expected);
  }

  lemma GrownTree(s: Session, environment: string, drafts: seq<KeyDraft>, expected: Expected)
    requires Ready(s) && Addable(s, environment, drafts, expected)
    ensures Consistent(s.ctx.host,
                       Applied(s.files, Laid(s, environment, drafts, expected) + [GrownWrite(s, drafts)]))
  {
    var source := GrownSource(s, drafts);
    ReadySchema(s);
    GrownSchema(s, drafts);
    LaidDocument(s, environment, drafts, expected);
    OldDocumentsPass(s, GrownKeys(s, drafts));
    PutSchemaKeeps(s.ctx.host, s.files, s.service, source);
    var writes := Laid(s, environment, drafts, expected);
    if writes == [] {
      assert writes + [GrownWrite(s, drafts)] == [GrownWrite(s, drafts)];
      AppliedOne(s.files, GrownWrite(s, drafts));
    } else {
      assert writes == [writes[0]];
      StoredDocument(s, environment);
      LaidThenGrown(s, environment, writes[0], GrownWrite(s, drafts));
    }
  }

  lemma LaidThenGrown(s: Session, e: string, w: Write, last: Write)
    requires Identifier(s.service) && Identifier(e)
    requires last.path == SchemaYaml(s.service) && last.content.Some? && ParseSchema(s.ctx.host, last.content.value).Some?
    requires Consistent(s.ctx.host, s.files[SchemaYaml(s.service) := last.content.value])
    requires w.path == s.Home(e) && w.content.Some?
    requires DocumentOk(s.ctx.host, ParseSchema(s.ctx.host, last.content.value).value.keys, w.content.value)
    ensures Consistent(s.ctx.host, Applied(s.files, [w] + [last]))
  {
    var c, schema := w.content.value, last.content.value;
    PutConfigKeeps(s.ctx.host, s.files[last.path := schema], s.Home(e), c);
    PutsCommute(s.files, s.Home(e), c, last.path, schema);
    AppliedConcat(s.files, [w], [last]);
    AppliedOne(s.files, w);
    AppliedOne(s.files[s.Home(e) := c], last);
  }

  /**
   * Values before schema: the tree is consistent after every single write of an addition if and only
   * if no draft brings a default. With a default, the first write stores a key no schema declares yet.
   */
  lemma AddSafeIff(s: Session, environment: string, drafts: seq<KeyDraft>, expected: Expected)
    requires Ready(s) && AddKeys(s, environment, drafts, expected).Ok?
    ensures SafeAlong(s.ctx.host, s.files, AddKeys(s, environment, drafts, expected).value.writes)
            <==> DraftDefaults(drafts) == map[]
  {
    AddParts(s, environment, drafts, expected);
    GrownSafeIff(s, environment, drafts, expected);
  }

  lemma GrownSafeIff(s: Session, environment: string, drafts: seq<KeyDraft>, expected: Expected)
    requires Ready(s) && Addable(s, environment, drafts, expected)
    ensures SafeAlong(s.ctx.host, s.files, Laid(s, environment, drafts, expected) + [GrownWrite(s, drafts)])
            <==> DraftDefaults(drafts) == map[]
  {
    LaidDocument(s, environment, drafts, expected);
    var writes, last := Laid(s, environment, drafts, expected), GrownWrite(s, drafts);
    if writes == [] {
      assert writes + [last] == [last];
      GrownTree(s, environment, drafts, expected);
      AppliedOne(s.files, last);
      SafeOne(s.ctx.host, s.files, last);
    } else {
      ReadySchema(s);
      BrokenMidway(s, environment, writes[0], writes + [last]);
    }
  }

  lemma BrokenMidway(s: Session, e: string, w: Write, writes: seq<Write>)
    requires Consistent(s.ctx.host, s.files) && KeysAt(s.ctx.host, s.files, s.service) == Some(s.Keys())
    requires writes != [] && writes[0] == w && w.path == s.Home(e) && w.content.Some?
    requires !DocumentOk(s.ctx.host, s.Keys(), w.content.value)
    ensures !SafeAlong(s.ctx.host, s.files, writes)
  {
    var after := s.files[s.Home(e) := w.content.value];
    ConfigKeepsKeys(s.ctx.host, s.files, s.Home(e), w.content.value, s.service);
    assert !ConfigFileOk(s.ctx.host, after, s.Home(e));
    assert !Consistent(s.ctx.host, after);
    assert Storage.Put(s.files, w.path, w.content) == after;
  }
}
