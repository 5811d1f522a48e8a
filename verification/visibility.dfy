/** What a database looks like while an operation's writes land one by one. */
module Visibility {
  import opened Wrappers
  import opened Documents
  import opened Text
  import opened Storage
  import opened Requests
  import opened Schemas
  import opened Builder
  import opened Registry
  import opened Products
  import opened Consistency

  /** The files after the writes, in order. */
  function Applied(files: Files, writes: seq<Write>): Files
    decreases |writes|
  {
    if writes == [] then files else Applied(Put(files, writes[0].path, writes[0].content), writes[1..])
  }

  /** The tree is consistent before the first write, and after each. */
  ghost predicate SafeAlong(host: Host, files: Files, writes: seq<Write>)
    decreases |writes|
  {
    Consistent(host, files)
    && (writes != [] ==> SafeAlong(host, Put(files, writes[0].path, writes[0].content), writes[1..]))
  }

  lemma {:induction false} AppliedConcat(files: Files, a: seq<Write>, b: seq<Write>)
    ensures Applied(files, a + b) == Applied(Applied(files, a), b)
    decreases |a|
  {
    if a == [] {
      assert a + b == b;
    } else {
      assert (a + b)[0] == a[0] && (a + b)[1..] == a[1..] + b;
      AppliedConcat(Put(files, a[0].path, a[0].content), a[1..], b);
    }
  }

  lemma {:induction false} SafeAlongConcat(host: Host, files: Files, a: seq<Write>, b: seq<Write>)
    requires SafeAlong(host, files, a) && SafeAlong(host, Applied(files, a), b)
    ensures SafeAlong(host, files, a + b)
    decreases |a|
  {
    if a == [] {
      assert a + b == b;
    } else {
      assert (a + b)[0] == a[0] && (a + b)[1..] == a[1..] + b;
      SafeAlongConcat(host, Put(files, a[0].path, a[0].content), a[1..], b);
    }
  }

  lemma {:induction false} SafeAtEnd(host: Host, files: Files, writes: seq<Write>)
    requires SafeAlong(host, files, writes)
    ensures Consistent(host, Applied(files, writes))
    decreases |writes|
  {
    if writes != [] {
      SafeAtEnd(host, Put(files, writes[0].path, writes[0].content), writes[1..]);
    }
  }

  /** A crash may leave any prefix of the writes in place. */
  lemma {:induction false} SafeAtEveryPoint(host: Host, files: Files, writes: seq<Write>, n: nat)
    requires SafeAlong(host, files, writes) && n <= |writes|
    ensures Consistent(host, Applied(files, writes[..n]))
    decreases |writes|
  {
    if n > 0 {
      assert writes[..n][0] == writes[0] && writes[..n][1..] == writes[1..][..n - 1];
      SafeAtEveryPoint(host, Put(files, writes[0].path, writes[0].content), writes[1..], n - 1);
    }
  }

  lemma {:induction false} EveryPointSafe(host: Host, files: Files, writes: seq<Write>)
    requires forall n: nat :: n <= |writes| ==> Consistent(host, Applied(files, writes[..n]))
    ensures SafeAlong(host, files, writes)
    decreases |writes|
  {
    assert writes[..0] == [];
    assert Applied(files, writes[..0]) == files;
    if writes != [] {
      var next := Put(files, writes[0].path, writes[0].content);
      forall n: nat | n <= |writes[1..]| ensures Consistent(host, Applied(next, writes[1..][..n])) {
        assert writes[..n + 1][0] == writes[0] && writes[..n + 1][1..] == writes[1..][..n];
        assert Consistent(host, Applied(files, writes[..n + 1]));
      }
      EveryPointSafe(host, next, writes[1..]);
    }
  }

  lemma {:induction false} OverlayFront(files: Files, ts: seq<Target>)
    requires ts != []
    ensures Overlay(files, ts)
            == Overlay(Put(files, ts[0].path, if ts[0].hash.Some? then Some(ts[0].hash.value.content) else None), ts[1..])
  {
    if |ts| > 1 {
      OverlayFront(files, ts[..|ts| - 1]);
      assert ts[..|ts| - 1][1..] == ts[1..][..|ts| - 2];
    }
  }

  /** The engine's installs are these writes: the same files after as many of either. */
  lemma {:induction false} AppliedIsOverlay(files: Files, base: Files, actor: string, writes: seq<Write>)
    ensures Overlay(files, TargetsOf(MutationsOf(base, actor, writes))) == Applied(files, writes)
    decreases |writes|
  {
    var ts := TargetsOf(MutationsOf(base, actor, writes));
    if writes != [] {
      OverlayFront(files, ts);
      AppliedIsOverlay(Put(files, writes[0].path, writes[0].content), base, actor, writes[1..]);
      assert ts[1..] == TargetsOf(MutationsOf(base, actor, writes[1..]));
    }
  }

  lemma AppliedOne(files: Files, w: Write)
    ensures Applied(files, [w]) == Put(files, w.path, w.content)
  {
  }

  lemma SafeOne(host: Host, files: Files, w: Write)
    requires Consistent(host, files) && Consistent(host, Put(files, w.path, w.content))
    ensures SafeAlong(host, files, [w])
  {
    assert [w][1..] == [];
  }

  lemma SafeThree(host: Host, files: Files, a: seq<Write>, b: seq<Write>, c: seq<Write>)
    requires SafeAlong(host, files, a) && SafeAlong(host, Applied(files, a), b)
    requires SafeAlong(host, Applied(Applied(files, a), b), c)
    ensures SafeAlong(host, files, a + b + c)
  {
    AppliedConcat(files, a, b);
    SafeAlongConcat(host, files, a, b);
    SafeAlongConcat(host, files, a + b, c);
  }

  // ---- the registry's entries ----

  lemma EntriesOk(registry: Yaml)
    requires GrantsOk(registry)
    ensures Entries(registry).Ok? && Null !in Entries(registry).value
    ensures forall i :: 0 <= i < |Entries(registry).value| ==> IsServiceEntry(Entries(registry).value[i])
    ensures forall i :: 0 <= i < |Entries(registry).value| ==>
              ServicesOf(registry)[i] == ServiceOf(Entries(registry).value[i])
    ensures |ServicesOf(registry)| == |Entries(registry).value|
  {
  }

  lemma {:induction false} FindAnswers(entries: seq<Yaml>, key: string, value: Yaml)
    requires forall i :: 0 <= i < |entries| ==> entries[i] != Null
    ensures Find(entries, key, value).Ok?
    ensures Find(entries, key, value).value.None? <==>
            forall i :: 0 <= i < |entries| ==> !HasField(entries[i], key, value)
    ensures Find(entries, key, value).value.Some? ==>
              Find(entries, key, value).value.value in entries
              && HasField(Find(entries, key, value).value.value, key, value)
  {
    if entries != [] && !HasField(entries[0], key, value) {
      FindAnswers(entries[1..], key, value);
      assert forall i :: 0 < i < |entries| ==> entries[i] == entries[1..][i - 1];
    }
  }

  lemma SameUid(entry: Yaml, uid: Number)
    requires IsServiceEntry(entry) && IsSafeInteger(uid) && uid.r.Floor >= 0
    ensures HasField(entry, "uid", Num(uid)) <==> ServiceOf(entry).uid == uid.r.Floor
  {
  }

  lemma NewEntryOk(service: string, uid: Number, environments: seq<string>)
    requires Identifier(service) && IsSafeInteger(uid) && uid.r.Floor >= 0
    requires environments != [] && forall e :: e in environments ==> Identifier(e)
    ensures IsServiceEntry(Entry(service, uid, environments))
    ensures ServiceOf(Entry(service, uid, environments)).name == service
    ensures ServiceOf(Entry(service, uid, environments)).uid == uid.r.Floor
  {
    var f := Entry(service, uid, environments).fields;
    var grants := f["namespaces"];
    assert f["name"] == Str(service) && f["uid"] == Num(uid);
    assert |grants.items| == |environments|;
    forall i | 0 <= i < |grants.items| ensures grants.items[i].Str? && IsNamespace(grants.items[i].s) {
      assert environments[i] in environments;
      SegmentsMakeNamespace(service, environments[i]);
    }
  }

  /** Appending a product whose name and uid are new keeps the registry loadable. */
  lemma AppendKeepsGrants(registry: Yaml, entry: Yaml)
    requires GrantsOk(registry) && IsServiceEntry(entry)
    requires forall i :: 0 <= i < |ServicesOf(registry)| ==>
               ServicesOf(registry)[i].name != ServiceOf(entry).name && ServicesOf(registry)[i].uid != ServiceOf(entry).uid
    ensures
      var after := WithEntries(registry, Entries(registry).value + [entry]);
      GrantsOk(after) && ServicesOf(after) == ServicesOf(registry) + [ServiceOf(entry)]
  {
    EntriesOk(registry);
    var after := WithEntries(registry, Entries(registry).value + [entry]);
    assert KnownVersion(after.fields) == KnownVersion(registry.fields);
    assert ServicesOf(after) == ServicesOf(registry) + [ServiceOf(entry)];
  }

  ghost predicate InOrder(entries: seq<Yaml>, x: Yaml, y: Yaml) {
    exists k, l :: 0 <= k < l < |entries| && entries[k] == x && entries[l] == y
  }

  lemma {:induction false} WithoutKeeps(entries: seq<Yaml>, name: string)
    ensures forall e :: e in Without(entries, name) <==> e in entries && !HasField(e, "name", Str(name))
  {
    if entries != [] {
      WithoutKeeps(entries[1..], name);
      assert entries == [entries[0]] + entries[1..];
    }
  }

  lemma {:induction false} WithoutKeepsOrder(entries: seq<Yaml>, name: string, i: nat, j: nat)
    requires i < j < |Without(entries, name)|
    ensures InOrder(entries, Without(entries, name)[i], Without(entries, name)[j])
  {
    var out, rest := Without(entries, name), Without(entries[1..], name);
    if HasField(entries[0], "name", Str(name)) {
      WithoutKeepsOrder(entries[1..], name, i, j);
      InOrderLater(entries, out[i], out[j]);
    } else if i > 0 {
      WithoutKeepsOrder(entries[1..], name, i - 1, j - 1);
      InOrderLater(entries, out[i], out[j]);
    } else {
      WithoutKeeps(entries[1..], name);
      assert rest[j - 1] in entries[1..];
      var l :| 0 <= l < |entries[1..]| && entries[1..][l] == rest[j - 1];
      assert entries[0] == out[0] && entries[l + 1] == out[j];
    }
  }

  lemma InOrderLater(entries: seq<Yaml>, x: Yaml, y: Yaml)
    requires entries != [] && InOrder(entries[1..], x, y)
    ensures InOrder(entries, x, y)
  {
    var k, l :| 0 <= k < l < |entries[1..]| && entries[1..][k] == x && entries[1..][l] == y;
    assert entries[k + 1] == x && entries[l + 1] == y;
  }

  /** Striking a product keeps the registry loadable, and every other product in it as it was. */
  lemma RemoveKeepsGrants(registry: Yaml, name: string)
    requires GrantsOk(registry)
    ensures
      var after := WithEntries(registry, Without(Entries(registry).value, name));
      && GrantsOk(after) && !Declares(after, name)
      && forall s :: s in ServicesOf(after) <==> s in ServicesOf(registry) && s.name != name
  {
    EntriesOk(registry);
    var entries := Entries(registry).value;
    var kept := Without(entries, name);
    var after := WithEntries(registry, kept);
    WithoutKeeps(entries, name);
    assert KnownVersion(after.fields) == KnownVersion(registry.fields);
    forall i | 0 <= i < |kept| ensures IsServiceEntry(kept[i]) && ServiceOf(kept[i]).name != name {
      assert kept[i] in kept;
    }
    assert IsRegistryFile(after);
    forall i, j | 0 <= i < j < |kept|
      ensures ServicesOf(after)[i].uid != ServicesOf(after)[j].uid && ServicesOf(after)[i].name != ServicesOf(after)[j].name
    {
      WithoutKeepsOrder(entries, name, i, j);
      var k, l :| 0 <= k < l < |entries| && entries[k] == kept[i] && entries[l] == kept[j];
      assert ServicesOf(registry)[k].uid != ServicesOf(registry)[l].uid;
      assert ServicesOf(registry)[k].name != ServicesOf(registry)[l].name;
    }
    KeptServices(registry, name);
  }

  lemma KeptServices(registry: Yaml, name: string)
    requires GrantsOk(registry) && IsRegistryFile(WithEntries(registry, Without(Entries(registry).value, name)))
    ensures
      var after := WithEntries(registry, Without(Entries(registry).value, name));
      forall s :: s in ServicesOf(after) <==> s in ServicesOf(registry) && s.name != name
  {
    var entries := Entries(registry).value;
    var kept := Without(entries, name);
    var after := WithEntries(registry, kept);
    WithoutKeeps(entries, name);
    forall s ensures s in ServicesOf(after) <==> s in ServicesOf(registry) && s.name != name {
      if s in ServicesOf(after) {
        var i :| 0 <= i < |kept| && ServicesOf(after)[i] == s;
        assert kept[i] in entries;
        var k :| 0 <= k < |entries| && entries[k] == kept[i];
        assert ServicesOf(registry)[k] == s;
      }
      if s in ServicesOf(registry) && s.name != name {
        var k :| 0 <= k < |entries| && ServicesOf(registry)[k] == s;
        assert entries[k] in kept;
        var i :| 0 <= i < |kept| && kept[i] == entries[k];
        assert ServicesOf(after)[i] == s;
      }
    }
  }
}
