/** Deleting, adding and promoting keys: the edits that reach across a product's environments. */
module KeyEdits {
  import opened Wrappers
  import opened Documents
  import opened Text
  import Storage
  import opened Requests
  import opened Schemas
  import opened Builder
  import opened Registry
  import opened Products
  import opened Consistency
  import opened Visibility
  import opened ProductSafety

  function Dropped(keys: seq<string>): set<string> {
    set k | k in keys
  }

  // ---- dropping keys ----

  /** The schema a deletion writes reads as the old keys without the deleted ones. */
  lemma ShrunkSchema(s: Session, keys: seq<string>)
    requires Ready(s) && s.schema.Some?
    ensures
      var fields := SchemaFields(s).value;
      ParseSchema(s.ctx.host, Stringify(Map(fields["keys" := Map(DeclaredKeys(fields) - Dropped(keys))])))
      == Some(Schema(s.Keys() - Dropped(keys), s.schema.value.retiring))
  {
    ReadySchema(s);
    var fields := SchemaFields(s).value;
    ParseKeysFewer(s.ctx.host, DeclaredKeys(fields), Dropped(keys));
    SchemaWithKeys(s.ctx.host, fields, DeclaredKeys(fields) - Dropped(keys));
  }

  /** What stays of a valid document is valid under what stays of its schema. */
  lemma DropAccepted(s: Session, keys: seq<string>, e: string)
    requires Ready(s) && s.schema.Some? && e in s.Environments()
    ensures Document(s, e).Ok?
    ensures
      var next := ConfigOnly(Document(s, e).value) - Dropped(keys);
      Accepts(s.ctx.host, s.Keys() - Dropped(keys), next) && next.Keys !! METADATA
  {
    ReadySchema(s);
    assert s.Home(e) in s.files;
    StoredDocument(s, e);
    AcceptsFewer(s.ctx.host, s.Keys(), ConfigOnly(Document(s, e).value), Dropped(keys));
  }

  /** Rewriting one environment leaves a document that both the old and the new schema accept. */
  lemma DroppedIsOk(s: Session, keys: seq<string>, e: string)
    requires Ready(s) && s.schema.Some? && e in s.Environments()
    requires Rewrite(s, s.Keys() - Dropped(keys), Drop(keys), keys, e).Ok?
    ensures
      var writes := Rewrite(s, s.Keys() - Dropped(keys), Drop(keys), keys, e).value;
      && (writes == [] || (|writes| == 1 && writes[0].path == s.Home(e) && writes[0].content.Some?))
      && var c := if writes == [] then s.files[s.Home(e)] else writes[0].content.value;
         DocumentOk(s.ctx.host, s.Keys(), c) && DocumentOk(s.ctx.host, s.Keys() - Dropped(keys), c)
  {
    ReadySchema(s);
    DropAccepted(s, keys, e);
    StoredDocument(s, e);
    var current, fewer := Document(s, e).value, s.Keys() - Dropped(keys);
    var next := ConfigOnly(current) - Dropped(keys);
    if next == ConfigOnly(current) {
      OkUnderAgreeing(s.ctx.host, s.Keys(), fewer, s.files[s.Home(e)]);
    } else {
      RewrittenIsOk(s, e, current, next, fewer, keys);
      var c := Rewritten(s, e, current, next, fewer, keys).value[0].content.value;
      OkUnderAgreeing(s.ctx.host, fewer, s.Keys(), c);
    }
  }

  /** Files differ at most in these environments of the product. */
  ghost predicate Elsewhere(before: Files, after: Files, s: Session, envs: seq<string>) {
    before.Keys == after.Keys
    && forall p :: p in before && (forall i :: 0 <= i < |envs| ==> p != s.Home(envs[i])) ==> after[p] == before[p]
  }

  lemma DropOne(s: Session, files: Files, keys: seq<string>, e: string)
    requires Ready(s) && s.schema.Some? && e in s.Environments()
    requires Rewrite(s, s.Keys() - Dropped(keys), Drop(keys), keys, e).Ok?
    requires Consistent(s.ctx.host, files) && KeysAt(s.ctx.host, files, s.service) == Some(s.Keys())
    requires Peek(files, s.Home(e)) == Peek(s.files, s.Home(e))
    ensures
      var writes := Rewrite(s, s.Keys() - Dropped(keys), Drop(keys), keys, e).value;
      var after := Applied(files, writes);
      && SafeAlong(s.ctx.host, files, writes) && Elsewhere(files, after, s, [e])
      && KeysAt(s.ctx.host, after, s.service) == Some(s.Keys())
      && s.Home(e) in after && DocumentOk(s.ctx.host, s.Keys() - Dropped(keys), after[s.Home(e)])
  {
    DroppedIsOk(s, keys, e);
    assert s.Home(e) in s.files;
    var writes := Rewrite(s, s.Keys() - Dropped(keys), Drop(keys), keys, e).value;
    assert [e][0] == e;
    if writes != [] {
      assert writes == [writes[0]];
      PutOne(s, files, e, writes[0]);
    }
  }

  lemma PutOne(s: Session, files: Files, e: string, w: Write)
    requires Consistent(s.ctx.host, files) && KeysAt(s.ctx.host, files, s.service) == Some(s.Keys())
    requires w.path == s.Home(e) && w.content.Some? && Identifier(e) && DocumentOk(s.ctx.host, s.Keys(), w.content.value)
    ensures SafeAlong(s.ctx.host, files, [w])
    ensures Applied(files, [w]) == files[s.Home(e) := w.content.value]
    ensures KeysAt(s.ctx.host, Applied(files, [w]), s.service) == Some(s.Keys())
  {
    PutConfigKeeps(s.ctx.host, files, s.Home(e), w.content.value);
    ConfigKeepsKeys(s.ctx.host, files, s.Home(e), w.content.value, s.service);
    SafeOne(s.ctx.host, files, w);
    AppliedOne(files, w);
  }

  ghost predicate Listing(s: Session, envs: seq<string>) {
    Ascending(envs) && forall i :: 0 <= i < |envs| ==> envs[i] in s.Environments()
  }

  lemma ListingTail(s: Session, envs: seq<string>)
    requires Listing(s, envs) && envs != []
    ensures envs[0] in s.Environments() && Listing(s, envs[1..])
    ensures forall i :: 0 <= i < |envs[1..]| ==> envs[1..][i] != envs[0]
  {
    forall i | 0 < i < |envs| ensures envs[i] != envs[0] {
      AscendingIsDistinct(envs, 0, i);
    }
  }

  lemma {:induction false} DropAll(s: Session, files: Files, keys: seq<string>, envs: seq<string>)
    requires Ready(s) && s.schema.Some? && Listing(s, envs)
    requires RewriteAll(s, s.Keys() - Dropped(keys), Drop(keys), keys, envs).Ok?
    requires Consistent(s.ctx.host, files) && KeysAt(s.ctx.host, files, s.service) == Some(s.Keys())
    requires forall i :: 0 <= i < |envs| ==> Peek(files, s.Home(envs[i])) == Peek(s.files, s.Home(envs[i]))
    ensures
      var writes := RewriteAll(s, s.Keys() - Dropped(keys), Drop(keys), keys, envs).value;
      var after := Applied(files, writes);
      && SafeAlong(s.ctx.host, files, writes) && Elsewhere(files, after, s, envs)
      && forall i :: 0 <= i < |envs| ==>
           s.Home(envs[i]) in after && DocumentOk(s.ctx.host, s.Keys() - Dropped(keys), after[s.Home(envs[i])])
    decreases |envs|
  {
    if envs != [] {
      var e, rest := envs[0], envs[1..];
      var fewer := s.Keys() - Dropped(keys);
      ListingTail(s, envs);
      var first := Rewrite(s, fewer, Drop(keys), keys, e).value;
      var later := RewriteAll(s, fewer, Drop(keys), keys, rest).value;
      DropOne(s, files, keys, e);
      var middle := Applied(files, first);
      SafeAtEnd(s.ctx.host, files, first);
      ElsewhereApart(files, middle, s, envs);
      DropAll(s, middle, keys, rest);
      AppliedConcat(files, first, later);
      SafeAlongConcat(s.ctx.host, files, first, later);
      ElsewhereChain(s.ctx.host, files, middle, Applied(middle, later), s, envs, fewer);
    }
  }

  lemma ElsewhereApart(files: Files, middle: Files, s: Session, envs: seq<string>)
    requires envs != [] && Elsewhere(files, middle, s, [envs[0]])
    requires forall i :: 0 <= i < |envs[1..]| ==> envs[1..][i] != envs[0]
    requires forall i :: 0 <= i < |envs| ==> Peek(files, s.Home(envs[i])) == Peek(s.files, s.Home(envs[i]))
    ensures forall i :: 0 <= i < |envs[1..]| ==>
              Peek(middle, s.Home(envs[1..][i])) == Peek(s.files, s.Home(envs[1..][i]))
  {
    forall i | 0 <= i < |envs[1..]|
      ensures Peek(middle, s.Home(envs[1..][i])) == Peek(s.files, s.Home(envs[1..][i]))
    {
      assert envs[1..][i] == envs[i + 1];
      assert s.Home(envs[i + 1]) != s.Home([envs[0]][0]);
    }
  }

  lemma ElsewhereChain(host: Host, files: Files, middle: Files, after: Files, s: Session, envs: seq<string>, keys: Keys)
    requires envs != [] && Elsewhere(files, middle, s, [envs[0]]) && Elsewhere(middle, after, s, envs[1..])
    requires forall i :: 0 <= i < |envs[1..]| ==> envs[1..][i] != envs[0]
    requires s.Home(envs[0]) in middle && DocumentOk(host, keys, middle[s.Home(envs[0])])
    requires forall i :: 0 <= i < |envs[1..]| ==>
               s.Home(envs[1..][i]) in after && DocumentOk(host, keys, after[s.Home(envs[1..][i])])
    ensures Elsewhere(files, after, s, envs)
    ensures forall i :: 0 <= i < |envs| ==> s.Home(envs[i]) in after && DocumentOk(host, keys, after[s.Home(envs[i])])
  {
    forall i | 0 <= i < |envs| ensures s.Home(envs[i]) in after && DocumentOk(host, keys, after[s.Home(envs[i])]) {
      if i == 0 {
        assert forall j :: 0 <= j < |envs[1..]| ==> s.Home(envs[0]) != s.Home(envs[1..][j]);
      } else {
        assert envs[i] == envs[1..][i - 1];
      }
    }
    forall p | p in files && (forall i :: 0 <= i < |envs| ==> p != s.Home(envs[i])) ensures after[p] == files[p] {
      assert p != s.Home(envs[0]);
      assert forall j :: 0 <= j < |envs[1..]| ==> envs[1..][j] == envs[j + 1];
    }
  }

  /** Environments first, schema last: at every point each document is valid under the schema on disk. */
  lemma DeleteSafe(s: Session, selected: seq<string>, expected: Option<Files>)
    requires Ready(s) && DeleteKeys(s, selected, expected).Ok?
    ensures SafeAlong(s.ctx.host, s.files, DeleteKeys(s, selected, expected).value.writes)
  {
    var keys, envs := Select(s, selected).value, Listed(s.Environments());
    ReadySchema(s);
    ShrunkSchema(s, keys);
    var fields := SchemaFields(s).value;
    var source := Stringify(Map(fields["keys" := Map(DeclaredKeys(fields) - Dropped(keys))]));
    var writes := RewriteAll(s, s.Keys() - Dropped(keys), Drop(keys), keys, envs).value;
    assert forall i :: 0 <= i < |envs| ==> envs[i] in envs;
    DropAll(s, s.files, keys, envs);
    ShrinkLast(s, keys, envs, writes, Write(SchemaYaml(s.service), Some(source), keys));
  }

  lemma ShrinkLast(s: Session, keys: seq<string>, envs: seq<string>, writes: seq<Write>, last: Write)
    requires Ready(s) && s.schema.Some? && envs == Listed(s.Environments())
    requires SafeAlong(s.ctx.host, s.files, writes) && Elsewhere(s.files, Applied(s.files, writes), s, envs)
    requires forall i :: 0 <= i < |envs| ==>
               s.Home(envs[i]) in Applied(s.files, writes)
               && DocumentOk(s.ctx.host, s.Keys() - Dropped(keys), Applied(s.files, writes)[s.Home(envs[i])])
    requires last.path == SchemaYaml(s.service) && last.content.Some?
    requires ParseSchema(s.ctx.host, last.content.value).Some?
    requires ParseSchema(s.ctx.host, last.content.value).value.keys == s.Keys() - Dropped(keys)
    ensures SafeAlong(s.ctx.host, s.files, writes + [last])
  {
    var host, after := s.ctx.host, Applied(s.files, writes);
    SafeAtEnd(host, s.files, writes);
    AllStored(s, after, envs, s.Keys() - Dropped(keys));
    PutSchemaKeeps(host, after, s.service, last.content.value);
    SafeOne(host, after, last);
    SafeAlongConcat(host, s.files, writes, [last]);
  }

  lemma AllStored(s: Session, after: Files, envs: seq<string>, keys: Keys)
    requires Consistent(s.ctx.host, after) && after.Keys == s.files.Keys && envs == Listed(s.Environments())
    requires forall i :: 0 <= i < |envs| ==> s.Home(envs[i]) in after && DocumentOk(s.ctx.host, keys, after[s.Home(envs[i])])
    ensures StoredPass(s.ctx.host, after, s.service, keys)
  {
    forall p | p in after && IsConfigPath(p) && p.dir.service == s.service
      ensures Identifier(p.name) && DocumentOk(s.ctx.host, keys, after[p])
    {
      assert ConfigFileOk(s.ctx.host, after, p);
      assert p.name in s.Environments();
      var i :| 0 <= i < |envs| && envs[i] == p.name;
      assert p == s.Home(envs[i]);
    }
  }

  predicate BeyondRepair(r: Result<seq<Write>, Refusal>) {
    r.Err? ==> r.error == VersionExhausted || r.error == NotEncrypted
  }

  lemma DropRefusal(s: Session, fewer: Keys, keys: seq<string>, e: string)
    requires Document(s, e).Ok?
    requires Accepts(s.ctx.host, fewer, ConfigOnly(Document(s, e).value) - Dropped(keys))
    ensures BeyondRepair(Rewrite(s, fewer, Drop(keys), keys, e))
  {
  }

  lemma {:induction false} DropRefusals(s: Session, keys: seq<string>, envs: seq<string>)
    requires Ready(s) && s.schema.Some? && Listing(s, envs)
    ensures BeyondRepair(RewriteAll(s, s.Keys() - Dropped(keys), Drop(keys), keys, envs))
    decreases |envs|
  {
    if envs != [] {
      ListingTail(s, envs);
      DropAccepted(s, keys, envs[0]);
      DropRefusal(s, s.Keys() - Dropped(keys), keys, envs[0]);
      DropRefusals(s, keys, envs[1..]);
    }
  }

  /** On a consistent tree a deletion never has to be refused for what it would leave behind. */
  lemma DeleteNeverOrphans(s: Session, selected: seq<string>, expected: Option<Files>)
    requires Ready(s)
    ensures
      var r := DeleteKeys(s, selected, expected);
      r.Err? ==> r.error in {ProductChanged, UnknownProduct, NothingSelected, UnknownKey, VersionExhausted, NotEncrypted}
  {
    EntriesOk(s.registry);
    FindAnswers(Entries(s.registry).value, "name", Str(s.service));
    if RequireProduct(s).Ok? && Select(s, selected).Ok? {
      var keys := Select(s, selected).value;
      ReadySchema(s);
      ShrunkSchema(s, keys);
      assert forall i :: 0 <= i < |Listed(s.Environments())| ==> Listed(s.Environments())[i] in Listed(s.Environments());
      DropRefusals(s, keys, Listed(s.Environments()));
    }
  }
}
