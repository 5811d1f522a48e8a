/** Where product operations may write: their own product's files, each once. */
module ProductFrame {
  import opened Wrappers
  import opened Documents
  import opened Text
  import Storage
  import opened Requests
  import opened Schemas
  import opened Builder
  import opened Registry
  import opened Products
  import opened Consistency
  import opened Visibility
  import opened ProductSafety
  import opened KeyEdits
  import opened KeyAdditions
  import opened ProductEffects

  // ---- paths as the engine compares them ----

  lemma HomesRenderApart(s: Session, a: string, b: string)
    requires a != b
    ensures s.Home(a).Render() != s.Home(b).Render()
  {
    var x, y := s.Home(a).Render(), s.Home(b).Render();
    var from := |s.Home(a).dir.Render()|;
    assert x[from..|x| - 5] == a && y[from..|y| - 5] == b;
  }

  lemma KindsRenderApart(s: Session, e: string)
    ensures s.Home(e).Render()[0] == 'c' && ArchivedYaml(s.service).Render()[0] == 'a'
    ensures SchemaYaml(s.service).Render()[..2] == "sc" && SERVICES_YAML.Render()[..2] == "se"
    ensures SchemaYaml(s.service).Render() != SERVICES_YAML.Render()
    ensures s.Home(e).Render() == "config/" + s.service + "/" + e + ".yaml"
    ensures SchemaYaml(s.service).Render() == "schema/" + s.service + ".yaml"
    ensures ArchivedYaml(s.service).Render() == "archived/" + s.service + ".yaml"
    ensures SERVICES_YAML.Render() == "services.yaml" && ENVIRONMENTS_YAML.Render() == "environments.yaml"
  {
    assert SchemaYaml(s.service).Render()[1] == 'c' && SERVICES_YAML.Render()[1] == 'e';
  }

  ghost predicate OfHome(s: Session, p: Path, envs: seq<string>) {
    exists e :: e in envs && p == s.Home(e)
  }

  /** The writes are to different environments among these. */
  ghost predicate HomesOnly(s: Session, writes: seq<Write>, envs: seq<string>) {
    && (forall i :: 0 <= i < |writes| ==> OfHome(s, writes[i].path, envs))
    && (forall i, j :: 0 <= i < j < |writes| ==> writes[i].path.Render() != writes[j].path.Render())
  }

  lemma HomesFront(s: Session, first: seq<Write>, rest: seq<Write>, envs: seq<string>)
    requires envs != [] && HomesOnly(s, rest, envs[1..]) && envs[0] !in envs[1..]
    requires first == [] || (|first| == 1 && first[0].path == s.Home(envs[0]))
    ensures HomesOnly(s, first + rest, envs)
  {
    var writes := first + rest;
    assert envs == [envs[0]] + envs[1..];
    forall i | 0 <= i < |writes| ensures OfHome(s, writes[i].path, envs) {
      if i < |first| {
        assert envs[0] in envs && writes[i] == first[0];
      } else {
        assert writes[i] == rest[i - |first|];
        assert OfHome(s, rest[i - |first|].path, envs[1..]);
        var e :| e in envs[1..] && rest[i - |first|].path == s.Home(e);
        assert e in envs;
      }
    }
    forall i, j | 0 <= i < j < |writes| ensures writes[i].path.Render() != writes[j].path.Render() {
      assert writes[j] == rest[j - |first|];
      if i < |first| {
        assert OfHome(s, rest[j - |first|].path, envs[1..]);
        var e :| e in envs[1..] && rest[j - |first|].path == s.Home(e);
        HomesRenderApart(s, envs[0], e);
      }
    }
  }

  lemma {:induction false} RewritesAreHomes(s: Session, keys: Keys, edit: Edit, touched: seq<string>, envs: seq<string>)
    requires RewriteAll(s, keys, edit, touched, envs).Ok? && Ascending(envs)
    ensures HomesOnly(s, RewriteAll(s, keys, edit, touched, envs).value, envs)
    decreases |envs|
  {
    if envs != [] {
      TailMembers(envs);
      RewritesAreHomes(s, keys, edit, touched, envs[1..]);
      RewriteOnly(s, s.files, keys, edit, touched, envs[0]);
      HomesFront(s, Rewrite(s, keys, edit, touched, envs[0]).value,
                 RewriteAll(s, keys, edit, touched, envs[1..]).value, envs);
    }
  }

  lemma {:induction false} EncodedAreHomes(s: Session, envs: seq<string>, value: Config, keys: Keys, touched: seq<string>)
    requires EncodeAll(s, envs, value, keys, touched).Ok? && !Duplicates(envs)
    ensures HomesOnly(s, EncodeAll(s, envs, value, keys, touched).value, envs)
    decreases |envs|
  {
    if envs != [] {
      forall i, j | 0 <= i < j < |envs[1..]| ensures envs[1..][i] != envs[1..][j] {
        assert envs[1..][i] == envs[i + 1] && envs[1..][j] == envs[j + 1];
      }
      forall j | 0 <= j < |envs[1..]| ensures envs[1..][j] != envs[0] {
        assert envs[1..][j] == envs[j + 1];
      }
      EncodedAreHomes(s, envs[1..], value, keys, touched);
      var c := Encode(s, envs[0], value, keys).value;
      HomesFront(s, [Write(s.Home(envs[0]), Some(c), touched)], EncodeAll(s, envs[1..], value, keys, touched).value, envs);
    }
  }

  lemma {:induction false} DeletionsAreHomes(s: Session, envs: seq<string>)
    requires Ascending(envs)
    ensures HomesOnly(s, Deletions(s, envs), envs)
  {
    forall i, j | 0 <= i < j < |envs|
      ensures Deletions(s, envs)[i].path.Render() != Deletions(s, envs)[j].path.Render()
    {
      AscendingIsDistinct(envs, i, j);
      HomesRenderApart(s, envs[i], envs[j]);
    }
    forall i | 0 <= i < |envs| ensures OfHome(s, Deletions(s, envs)[i].path, envs) {
      assert envs[i] in envs && Deletions(s, envs)[i].path == s.Home(envs[i]);
    }
  }

  // ---- whole plans ----

  /** The writes are to the product's own files, and none is written twice. */
  ghost predicate Tidy(s: Session, writes: seq<Write>) {
    && (forall i :: 0 <= i < |writes| ==> !Foreign(s, writes[i].path))
    && (forall i, j :: 0 <= i < j < |writes| ==> writes[i].path.Render() != writes[j].path.Render())
  }

  ghost predicate Apart(a: seq<Write>, b: seq<Write>) {
    forall i, j :: 0 <= i < |a| && 0 <= j < |b| ==> a[i].path.Render() != b[j].path.Render()
  }

  lemma TidyConcat(s: Session, a: seq<Write>, b: seq<Write>)
    requires Tidy(s, a) && Tidy(s, b) && Apart(a, b)
    ensures Tidy(s, a + b)
  {
  }

  lemma HomesAreTidy(s: Session, writes: seq<Write>, envs: seq<string>)
    requires HomesOnly(s, writes, envs)
    ensures Tidy(s, writes)
    ensures forall i :: 0 <= i < |writes| ==> writes[i].path.Render()[..1] == "c"
  {
    forall i | 0 <= i < |writes| ensures writes[i].path.Render()[..1] == "c" && !Foreign(s, writes[i].path) {
      assert OfHome(s, writes[i].path, envs);
      var e :| e in envs && writes[i].path == s.Home(e);
      KindsRenderApart(s, e);
    }
  }

  ghost predicate OtherKind(writes: seq<Write>) {
    forall i :: 0 <= i < |writes| ==> writes[i].path.Render() != "" && writes[i].path.Render()[0] != 'c'
  }

  /** Environments, framed by files of other kinds. */
  lemma FramedIsTidy(s: Session, before: seq<Write>, middle: seq<Write>, after: seq<Write>, envs: seq<string>)
    requires HomesOnly(s, middle, envs) && Tidy(s, before) && Tidy(s, after) && Apart(before, after)
    requires OtherKind(before) && OtherKind(after)
    ensures Tidy(s, before + middle + after)
  {
    HomesAreTidy(s, middle, envs);
    TidyConcat(s, before, middle);
    TidyConcat(s, before + middle, after);
  }

  lemma CreateTidy(s: Session, uid: Number, envs: seq<string>, schema: Content, defaults: seq<Field>)
    requires Create(s, uid, envs, schema, defaults).Ok?
    ensures Tidy(s, Create(s, uid, envs, schema, defaults).value.writes)
  {
    CreateParts(s, uid, envs, schema, defaults);
    var keys, value := ParseSchema(s.ctx.host, schema).value.keys, Versioned(ToConfig(defaults), 1);
    EncodedAreHomes(s, envs, value, keys, FieldKeys(defaults));
    KindsRenderApart(s, "");
    FramedIsTidy(s, [Write(SchemaYaml(s.service), Some(schema), [s.service])],
                 EncodeAll(s, envs, value, keys, FieldKeys(defaults)).value, [RegistryWrite(s, uid, envs)], envs);
  }

  lemma ValuesTidy(s: Session, e: string, changes: seq<Change>, expected: Expected)
    requires Values(s, e, changes, expected).Ok?
    ensures Tidy(s, Values(s, e, changes, expected).value)
  {
    ValuesOneHome(s, e, changes, expected);
    KindsRenderApart(s, e);
  }

  lemma ValuesOneHome(s: Session, e: string, changes: seq<Change>, expected: Expected)
    requires Values(s, e, changes, expected).Ok?
    ensures
      var writes := Values(s, e, changes, expected).value;
      |writes| <= 1 && forall i :: 0 <= i < |writes| ==> writes[i].path == s.Home(e)
  {
  }

  lemma SchemaLastTidy(s: Session, writes: seq<Write>, last: Write, envs: seq<string>)
    requires HomesOnly(s, writes, envs) && last.path == SchemaYaml(s.service)
    ensures Tidy(s, writes + [last])
  {
    KindsRenderApart(s, "");
    FramedIsTidy(s, [], writes, [last], envs);
    assert [] + writes + [last] == writes + [last];
  }

  lemma AddTidy(s: Session, e: string, drafts: seq<KeyDraft>, expected: Expected)
    requires AddKeys(s, e, drafts, expected).Ok?
    ensures Tidy(s, AddKeys(s, e, drafts, expected).value.writes)
  {
    AddParts(s, e, drafts, expected);
    RewriteOnly(s, s.files, GrownKeys(s, drafts), Lay(e, DraftDefaults(drafts), expected), NamesOf(drafts), e);
    assert e in [e];
    SchemaLastTidy(s, Laid(s, e, drafts, expected), GrownWrite(s, drafts), [e]);
  }

  lemma DeleteTidy(s: Session, selected: seq<string>, expected: Option<Files>)
    requires DeleteKeys(s, selected, expected).Ok?
    ensures Tidy(s, DeleteKeys(s, selected, expected).value.writes)
  {
    var keys, envs := Select(s, selected).value, Listed(s.Environments());
    var writes := DeleteKeys(s, selected, expected).value.writes;
    var fields := SchemaFields(s).value;
    var source := Stringify(Map(fields["keys" := Map(DeclaredKeys(fields) - (set k | k in keys))]));
    var candidate := ParseSchema(s.ctx.host, source).value.keys;
    RewritesAreHomes(s, candidate, Drop(keys), keys, envs);
    SchemaLastTidy(s, RewriteAll(s, candidate, Drop(keys), keys, envs).value,
                   Write(SchemaYaml(s.service), Some(source), keys), envs);
  }

  ghost predicate NotHome(p: Path) {
    p.Render() != "" && p.Render()[0] != 'c'
  }

  lemma PairTidy(s: Session, a: Write, b: Write)
    requires !Foreign(s, a.path) && !Foreign(s, b.path) && a.path.Render() != b.path.Render()
    ensures Tidy(s, [a, b])
  {
  }

  lemma PairApart(a: Write, b: Write, c: Write)
    requires a.path.Render() != c.path.Render() && b.path.Render() != c.path.Render()
    ensures Apart([a, b], [c])
  {
  }

  lemma PairOtherKind(a: Write, b: Write)
    requires NotHome(a.path) && NotHome(b.path)
    ensures OtherKind([a, b])
  {
  }

  lemma ArchiveRendersApart(s: Session)
    ensures NotHome(SERVICES_YAML) && NotHome(ArchivedYaml(s.service)) && NotHome(SchemaYaml(s.service))
    ensures ArchivedYaml(s.service).Render() != SERVICES_YAML.Render()
    ensures ArchivedYaml(s.service).Render() != SchemaYaml(s.service).Render()
  {
    KindsRenderApart(s, "");
    assert SERVICES_YAML.Render()[0] == 's' && SchemaYaml(s.service).Render()[0] == 's';
  }

  lemma ArchiveRimTidy(s: Session, strike: Write, keep: Write, last: Write)
    requires strike.path == SERVICES_YAML && keep.path == ArchivedYaml(s.service) && last.path == SchemaYaml(s.service)
    ensures Tidy(s, [strike, keep]) && Tidy(s, [last]) && Apart([strike, keep], [last])
    ensures OtherKind([strike, keep]) && OtherKind([last])
  {
    ArchiveRendersApart(s);
    KindsRenderApart(s, "");
    PairTidy(s, strike, keep);
    PairApart(strike, keep, last);
    PairOtherKind(strike, keep);
  }

  lemma ArchiveWritesTidy(s: Session, strike: Write, keep: Write)
    requires strike.path == SERVICES_YAML && keep.path == ArchivedYaml(s.service)
    ensures Tidy(s, [strike, keep] + Deletions(s, Listed(s.Environments())) + [Write(SchemaYaml(s.service), None, [s.service])])
  {
    var envs, last := Listed(s.Environments()), Write(SchemaYaml(s.service), None, [s.service]);
    DeletionsAreHomes(s, envs);
    ArchiveRimTidy(s, strike, keep, last);
    FramedIsTidy(s, [strike, keep], Deletions(s, envs), [last], envs);
  }

  lemma ArchiveTidy(s: Session, expected: Option<Files>, force: bool, at: string, author: string)
    requires Archive(s, expected, force, at, author).Ok?
    ensures Tidy(s, Archive(s, expected, force, at, author).value.writes)
  {
    ArchiveParts(s, expected, force, at, author);
    var writes := Archive(s, expected, force, at, author).value.writes;
    ArchiveWritesTidy(s, writes[0], writes[1]);
  }

  /** An accepted operation never asks the engine for one path twice, nor for another product's files. */
  lemma PlansAreTidy(s: Session, op: Operation)
    requires Act(s, op).Ok?
    ensures Tidy(s, Act(s, op).value.writes)
    ensures DistinctPaths(MutationsOf(s.files, s.ctx.actor, Act(s, op).value.writes))
  {
    match op
    case CreateOp(uid, environments, schema, defaults) => CreateTidy(s, uid, environments, schema, defaults);
    case WriteOp(environment, changes, expected) => ValuesTidy(s, environment, changes, expected);
    case RetireOp(retiring, force) => assert Tidy(s, Act(s, op).value.writes);
    case PromoteOp(from, to, keys) =>
      ValuesTidy(s, to, Copied(Select(s, keys).value, Document(s, from).value), None);
    case AddOp(environment, drafts, expected) => AddTidy(s, environment, drafts, expected);
    case DeleteOp(keys, expected) => DeleteTidy(s, keys, expected);
    case ArchiveOp(expected, force, at, author) => ArchiveTidy(s, expected, force, at, author);
  }

  lemma {:induction false} AppliedElsewhere(files: Files, writes: seq<Write>, p: Path)
    requires forall i :: 0 <= i < |writes| ==> writes[i].path != p
    ensures Peek(Applied(files, writes), p) == Peek(files, p)
    decreases |writes|
  {
    if writes != [] {
      AppliedElsewhere(Put(files, writes[0]), writes[1..], p);
    }
  }

  function Put(files: Files, w: Write): Files {
    Storage.Put(files, w.path, w.content)
  }

  /** No operation on one product changes another's files. */
  lemma OthersUntouched(s: Session, op: Operation, p: Path)
    requires Act(s, op).Ok? && Foreign(s, p)
    ensures Peek(Applied(s.files, Act(s, op).value.writes), p) == Peek(s.files, p)
  {
    PlansAreTidy(s, op);
    AppliedElsewhere(s.files, Act(s, op).value.writes, p);
  }

  ghost predicate Rewrites(s: Session, writes: seq<Write>, after: Yaml) {
    exists w :: w in writes && w.path == SERVICES_YAML && w.content == Some(Stringify(after))
  }

  lemma NewGrantsOnly(s: Session, uid: Number, envs: seq<string>) returns (after: Yaml)
    requires Ready(s) && MayCreate(s, uid, envs).Ok?
    ensures RegistryWrite(s, uid, envs).content == Some(Stringify(after))
    ensures IsRegistryFile(s.registry) && IsRegistryFile(after)
    ensures forall x: Service :: x.name != s.service ==> (x in ServicesOf(after) <==> x in ServicesOf(s.registry))
  {
    NewNames(s, uid, envs);
    after := WithEntries(s.registry, Entries(s.registry).value + [Entry(s.service, uid, envs)]);
  }

  /** Creating a product changes no other product's grants. */
  lemma CreateKeepsGrants(s: Session, uid: Number, envs: seq<string>, schema: Content, defaults: seq<Field>)
    returns (after: Yaml)
    requires Ready(s) && Create(s, uid, envs, schema, defaults).Ok?
    ensures Rewrites(s, Create(s, uid, envs, schema, defaults).value.writes, after)
    ensures IsRegistryFile(s.registry) && IsRegistryFile(after)
    ensures forall x: Service :: x.name != s.service ==> (x in ServicesOf(after) <==> x in ServicesOf(s.registry))
  {
    CreateParts(s, uid, envs, schema, defaults);
    after := NewGrantsOnly(s, uid, envs);
    RegistryIsWritten(s, uid, envs, schema, defaults);
  }

  lemma RegistryIsWritten(s: Session, uid: Number, envs: seq<string>, schema: Content, defaults: seq<Field>)
    requires Create(s, uid, envs, schema, defaults).Ok?
    ensures MayCreate(s, uid, envs).Ok? && RegistryWrite(s, uid, envs) in Create(s, uid, envs, schema, defaults).value.writes
  {
    CreateParts(s, uid, envs, schema, defaults);
    var writes := Create(s, uid, envs, schema, defaults).value.writes;
    assert writes[|writes| - 1] == RegistryWrite(s, uid, envs);
  }

  /** Archiving a product takes away its grants and no other's. */
  lemma ArchiveKeepsGrants(s: Session, expected: Option<Files>, force: bool, at: string, author: string)
    returns (after: Yaml)
    requires Ready(s) && Archive(s, expected, force, at, author).Ok?
    ensures Rewrites(s, Archive(s, expected, force, at, author).value.writes, after)
    ensures IsRegistryFile(s.registry) && IsRegistryFile(after)
    ensures forall x: Service :: x in ServicesOf(after) <==> x in ServicesOf(s.registry) && x.name != s.service
  {
    after := WithEntries(s.registry, Without(Entries(s.registry).value, s.service));
    RemoveKeepsGrants(s.registry, s.service);
    assert Archive(s, expected, force, at, author).value.writes[0].content == Some(Stringify(after));
  }
}
