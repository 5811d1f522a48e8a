/** The grant table, backed by `services.yaml`. */
module Registry {
  import opened Wrappers
  import opened Documents
  import opened Schemas

  datatype Service = Service(name: string, uid: nat, namespaces: seq<string>)

  // ---- namespaces ----

  predicate IsLowerOrDigit(c: char) {
    'a' <= c <= 'z' || '0' <= c <= '9'
  }

  predicate IsSegment(s: string) {
    s != "" && IsLowerOrDigit(s[0]) && forall i :: 0 < i < |s| ==> IsLowerOrDigit(s[i]) || s[i] == '-'
  }

  /** `<service>/<environment>`, and nothing else. */
  predicate IsNamespace(s: string) {
    exists i :: 0 <= i < |s| && s[i] == '/' && IsSegment(s[..i]) && IsSegment(s[i + 1..])
  }

  function Namespace(service: string, environment: string): string {
    service + "/" + environment
  }

  lemma SegmentsMakeNamespace(service: string, environment: string)
    requires IsSegment(service) && IsSegment(environment)
    ensures IsNamespace(Namespace(service, environment))
  {
    var s, i := Namespace(service, environment), |service|;
    assert s[i] == '/' && s[..i] == service && s[i + 1..] == environment;
  }

  lemma NamespaceIff(s: string)
    ensures IsNamespace(s) <==> exists a, b :: IsSegment(a) && IsSegment(b) && s == Namespace(a, b)
  {
    if i :| 0 <= i < |s| && s[i] == '/' && IsSegment(s[..i]) && IsSegment(s[i + 1..]) {
      assert s == Namespace(s[..i], s[i + 1..]);
    }
    if a, b :| IsSegment(a) && IsSegment(b) && s == Namespace(a, b) {
      SegmentsMakeNamespace(a, b);
    }
  }

  /** A namespace splits in one way only, so no grant can be read as another product's. */
  lemma NamespaceSplitsOnce(a: string, b: string, c: string, d: string)
    requires IsSegment(a) && IsSegment(b) && IsSegment(c) && IsSegment(d)
    requires Namespace(a, b) == Namespace(c, d)
    ensures a == c && b == d
  {
    var s := Namespace(a, b);
    assert s[|a|] == '/' && s[|c|] == '/';
    assert forall i :: 0 <= i < |a| ==> s[i] == a[i] && a[i] != '/';
    assert forall i :: 0 <= i < |c| ==> s[i] == c[i] && c[i] != '/';
    assert s[..|a|] == a && s[..|c|] == c && s[|a| + 1..] == b && s[|c| + 1..] == d;
  }

  // ---- the file's shape ----

  predicate IsUid(v: Yaml) {
    v.Num? && IsSafeInteger(v.n) && v.n.r.Floor >= 0
  }

  predicate IsGrantList(v: Yaml) {
    v.List? && v.items != [] && forall i :: 0 <= i < |v.items| ==> v.items[i].Str? && IsNamespace(v.items[i].s)
  }

  predicate IsServiceEntry(v: Yaml) {
    && v.Map? && {"name", "uid", "namespaces"} <= v.fields.Keys
    && v.fields["name"].Str? && v.fields["name"].s != "" && IsUid(v.fields["uid"])
    && IsGrantList(v.fields["namespaces"])
  }

  function ServiceOf(v: Yaml): Service
    requires IsServiceEntry(v)
  {
    var grants := v.fields["namespaces"].items;
    Service(v.fields["name"].s, v.fields["uid"].n.r.Floor,
            seq(|grants|, i requires 0 <= i < |grants| => grants[i].s))
  }

  /** `FileSchema`: the version is 1 and every service is well formed. */
  predicate IsRegistryFile(tree: Yaml) {
    && tree.Map? && KnownVersion(tree.fields)
    && "services" in tree.fields && tree.fields["services"].List?
    && forall i :: 0 <= i < |tree.fields["services"].items| ==> IsServiceEntry(tree.fields["services"].items[i])
  }

  function ServicesOf(tree: Yaml): seq<Service>
    requires IsRegistryFile(tree)
  {
    var items := tree.fields["services"].items;
    seq(|items|, i requires 0 <= i < |items| => ServiceOf(items[i]))
  }

  ghost predicate UidsDistinct(services: seq<Service>) {
    forall i, j :: 0 <= i < j < |services| ==> services[i].uid != services[j].uid
  }

  /** `ServiceRegistry.fromYaml` succeeds. */
  ghost predicate RegistryLoads(c: Content) {
    c.Text? && IsRegistryFile(c.tree) && UidsDistinct(ServicesOf(c.tree))
  }

  /** The entry declares the service: a name, a uid, and at least one namespace it may read. */
  ghost predicate Says(entry: Yaml, service: Service) {
    && FieldOf(entry, "name") == Some(Str(service.name)) && service.name != ""
    && FieldOf(entry, "uid") == Some(Num(Int(service.uid))) && service.uid <= MAX_SAFE_INTEGER
    && FieldOf(entry, "namespaces").Some? && FieldOf(entry, "namespaces").value.List?
    && var grants := FieldOf(entry, "namespaces").value.items;
       |grants| == |service.namespaces| > 0
       && forall i :: 0 <= i < |grants| ==> grants[i] == Str(service.namespaces[i]) && IsNamespace(service.namespaces[i])
  }

  /** The file is of version 1 and its entries declare these services, in order. */
  ghost predicate DeclaresAll(tree: Yaml, services: seq<Service>) {
    && FieldOf(tree, "version") == Some(Num(Int(1)))
    && FieldOf(tree, "services").Some? && FieldOf(tree, "services").value.List?
    && var items := FieldOf(tree, "services").value.items;
       |items| == |services| && forall i :: 0 <= i < |items| ==> Says(items[i], services[i])
  }

  lemma EntryIff(entry: Yaml, service: Service)
    ensures IsServiceEntry(entry) && ServiceOf(entry) == service <==> Says(entry, service)
  {
    assert (service.uid as real).Floor == service.uid;
    if IsServiceEntry(entry) && ServiceOf(entry) == service {
      var grants := entry.fields["namespaces"].items;
      assert entry.fields["uid"] == Num(Int(service.uid));
      assert forall i :: 0 <= i < |grants| ==> grants[i] == Str(service.namespaces[i]);
    }
    if Says(entry, service) {
      assert ServiceOf(entry).namespaces == service.namespaces;
    }
  }

  /** A registry loads exactly if it declares services, no two of them under one uid. */
  lemma LoadsIff(c: Content, services: seq<Service>)
    ensures c.Text? && DeclaresAll(c.tree, services) && UidsDistinct(services)
            <==> RegistryLoads(c) && ServicesOf(c.tree) == services
  {
    if RegistryLoads(c) && ServicesOf(c.tree) == services {
      var items := c.tree.fields["services"].items;
      forall i | 0 <= i < |items| ensures Says(items[i], services[i]) {
        EntryIff(items[i], services[i]);
      }
    }
    if c.Text? && DeclaresAll(c.tree, services) && UidsDistinct(services) {
      var items := FieldOf(c.tree, "services").value.items;
      forall i | 0 <= i < |items| ensures IsServiceEntry(items[i]) && ServiceOf(items[i]) == services[i] {
        EntryIff(items[i], services[i]);
      }
      assert ServicesOf(c.tree) == services;
    }
  }

  /** `byUid` holds exactly these services, each under its own uid. */
  ghost predicate Indexes(byUid: map<nat, Service>, services: seq<Service>) {
    && UidsDistinct(services)
    && (forall i :: 0 <= i < |services| ==> services[i].uid in byUid && byUid[services[i].uid] == services[i])
    && (forall u :: u in byUid ==> byUid[u] in services && byUid[u].uid == u)
  }

  // ---- lookups ----

  class ServiceRegistry {
    const byUid: map<nat, Service>

    constructor (byUid: map<nat, Service>)
      ensures this.byUid == byUid
    {
      this.byUid := byUid;
    }

    /** The constructor's loop: two services may not claim one uid. */
    static method Index(services: seq<Service>) returns (byUid: Option<map<nat, Service>>)
      ensures byUid.Some? <==> UidsDistinct(services)
      ensures byUid.Some? ==> Indexes(byUid.value, services)
    {
      var found: map<nat, Service> := map[];
      for i := 0 to |services|
        invariant Indexes(found, services[..i])
      {
        var service := services[i];
        if service.uid in found {
          ghost var j :| 0 <= j < i && services[j] == found[service.uid];
          assert services[j].uid == services[i].uid;
          return None;
        }
        found := found[service.uid := service];
        assert services[..i + 1] == services[..i] + [service];
      }
      assert services[..|services|] == services;
      return Some(found);
    }

    static method FromYaml(source: Content) returns (registry: Option<ServiceRegistry>)
      ensures registry.Some? <==> RegistryLoads(source)
      ensures registry.Some? ==> Indexes(registry.value.byUid, ServicesOf(source.tree))
    {
      if source.Unparsable? || !IsRegistryFile(source.tree) {
        return None;
      }
      var byUid := Index(ServicesOf(source.tree));
      if byUid.None? {
        return None;
      }
      var loaded := new ServiceRegistry(byUid.value);
      return Some(loaded);
    }

    function Identify(uid: nat): Option<Service> {
      if uid in byUid then Some(byUid[uid]) else None
    }

    predicate MayRead(service: Service, namespace: string) {
      service.uid in byUid && byUid[service.uid].name == service.name
      && namespace in byUid[service.uid].namespaces
    }

    /** A uid identifies the one declared service that claims it, whatever the order of the file. */
    lemma IdentifiesTheClaimant(services: seq<Service>, uid: nat)
      requires Indexes(byUid, services)
      ensures forall s :: Identify(uid) == Some(s) <==> s in services && s.uid == uid
    {
    }

    /**
     * A caller may read exactly what the file grants its uid under its name: widening the grants on
     * the identity it presents changes nothing.
     */
    lemma MayReadIsTheGrantTable(services: seq<Service>, caller: Service, namespace: string, widened: seq<string>)
      requires Indexes(byUid, services)
      ensures MayRead(caller, namespace) <==>
              exists s :: s in services && s.uid == caller.uid && s.name == caller.name && namespace in s.namespaces
      ensures MayRead(caller.(namespaces := widened), namespace) == MayRead(caller, namespace)
    {
      if MayRead(caller, namespace) {
        assert byUid[caller.uid] in services;
      }
    }
  }
}
