/** Turning the console's key form into a schema file. */
module Builder {
  import opened Wrappers
  import opened Documents
  import opened Schemas

  /** What the console's new-key form sends for one key. `kind` is its `type` field and `fallback` its `default`. */
  datatype KeyDraft = KeyDraft(name: string, kind: string, secret: bool, values: seq<string>, description: string,
                               min: Option<Number>, max: Option<Number>, fallback: Option<Yaml>)

  datatype Flaw =
    | BadName | ReservedName | DeclaredTwice | UnknownType
    | SecretNotString | SecretWithValue | SecretWithChoices
    | ChoicesNotAllowed | BoundsNotAllowed | MinNotWhole | MaxNotWhole | MinAboveMax
    | DefaultNotListed | DefaultOfWrongType | DefaultBelowMin | DefaultAboveMax

  datatype Problem = Problem(key: string, flaw: Flaw)

  // ---- text ----

  predicate IsSpace(c: char) {
    '\t' <= c <= '\r' || '\U{2000}' <= c <= '\U{200A}'
    || c in {' ', '\U{A0}', '\U{1680}', '\U{2028}', '\U{2029}', '\U{202F}', '\U{205F}', '\U{3000}', '\U{FEFF}'}
  }

  function TrimStart(s: string): string {
    if s != "" && IsSpace(s[0]) then TrimStart(s[1..]) else s
  }

  function TrimEnd(s: string): string {
    if s != "" && IsSpace(s[|s| - 1]) then TrimEnd(s[..|s| - 1]) else s
  }

  function Trim(s: string): string {
    TrimEnd(TrimStart(s))
  }

  function Nonblank(values: seq<string>): seq<string> {
    if values == [] then []
    else (if Trim(values[0]) != "" then [values[0]] else []) + Nonblank(values[1..])
  }

  predicate IsKeyName(s: string) {
    s != "" && 'A' <= s[0] <= 'Z' && forall i :: 0 < i < |s| ==> 'A' <= s[i] <= 'Z' || '0' <= s[i] <= '9' || s[i] == '_'
  }

  // ---- one draft ----

  function NameOf(d: KeyDraft): string { Trim(d.name) }

  function Choices(d: KeyDraft): seq<string> { Nonblank(d.values) }

  predicate Enumerated(d: KeyDraft) { Choices(d) != [] }

  /** The default the form carries: null and absence both mean there is none. */
  function Given(d: KeyDraft): Option<Yaml> {
    if d.fallback == Some(Null) then None else d.fallback
  }

  predicate IsOfType(kind: string, v: Yaml) {
    if v.Null? then true
    else if kind == "int" then v.Num? && v.n.IsInteger()
    else if kind == "bool" then v.Bool?
    else if kind == "string[]" then v.List? && AllStrings(v.items)
    else IsString(v)
  }

  /** What may be secret and what may list values. */
  predicate ShapeFlaw(d: KeyDraft, flaw: Flaw) {
    || (flaw == SecretNotString && d.secret && d.kind != "string")
    || (flaw == SecretWithValue && d.secret && Given(d).Some? && Given(d) != Some(Str("")))
    || (flaw == SecretWithChoices && d.secret && Enumerated(d))
    || (flaw == ChoicesNotAllowed && Enumerated(d) && d.kind != "string" && d.kind != "enum")
  }

  predicate BoundFlaw(d: KeyDraft, flaw: Flaw) {
    || (flaw == BoundsNotAllowed && (d.min.Some? || d.max.Some?) && d.kind != "int")
    || (flaw == MinNotWhole && d.min.Some? && !d.min.value.IsInteger())
    || (flaw == MaxNotWhole && d.max.Some? && !d.max.value.IsInteger())
    || (flaw == MinAboveMax && d.min.Some? && d.max.Some? && d.min.value.Finite? && d.max.value.Finite?
        && d.max.value.Below(d.min.value))
  }

  predicate DefaultFlaw(host: Host, d: KeyDraft, flaw: Flaw) {
    Given(d).Some?
    && var v := Given(d).value;
    if Enumerated(d) then flaw == DefaultNotListed && AsString(host, v) !in Choices(d)
    else if !IsOfType(d.kind, v) then flaw == DefaultOfWrongType
    else
      v.Num? && (|| (flaw == DefaultBelowMin && d.min.Some? && v.n.Below(d.min.value))
                 || (flaw == DefaultAboveMax && d.max.Some? && d.max.value.Below(v.n)))
  }

  /** Whether a draft has a flaw, after drafts of the names in `seen`; an unknown type hides every later check. */
  predicate Has(host: Host, d: KeyDraft, seen: set<string>, flaw: Flaw) {
    || (flaw == BadName && !IsKeyName(NameOf(d)))
    || (flaw == ReservedName && NameOf(d) in METADATA)
    || (flaw == DeclaredTwice && NameOf(d) in seen)
    || (flaw == UnknownType && d.kind !in KEY_TYPES)
    || (d.kind in KEY_TYPES && (ShapeFlaw(d, flaw) || BoundFlaw(d, flaw) || DefaultFlaw(host, d, flaw)))
  }

  ghost predicate Reports(host: Host, d: KeyDraft, seen: set<string>, problems: seq<Problem>) {
    forall p :: p in problems <==> p.key == NameOf(d) && Has(host, d, seen, p.flaw)
  }

  /** Every problem with a draft at once, and the names seen so far. */
  method CheckKey(host: Host, draft: KeyDraft, seen: set<string>) returns (problems: seq<Problem>, seen': set<string>)
    ensures Reports(host, draft, seen, problems)
    ensures seen' == seen + {NameOf(draft)}
  {
    problems := [];
    var name := Trim(draft.name);
    seen' := seen + {name};
    if !IsKeyName(name) {
      problems := problems + [Problem(name, BadName)];
    }
    if name in METADATA {
      problems := problems + [Problem(name, ReservedName)];
    }
    if name in seen {
      problems := problems + [Problem(name, DeclaredTwice)];
    }
    if draft.kind !in KEY_TYPES {
      problems := problems + [Problem(name, UnknownType)];
      return;
    }
    var shape := CheckShape(draft, name);
    var bounds := CheckBounds(draft, name);
    var fallback := CheckDefault(host, draft, name);
    problems := problems + shape + bounds + fallback;
  }

  method CheckShape(draft: KeyDraft, name: string) returns (problems: seq<Problem>)
    ensures forall p :: p in problems <==> p.key == name && ShapeFlaw(draft, p.flaw)
  {
    problems := [];
    var values := Nonblank(draft.values);
    var enumerated := |values| > 0;
    if draft.secret && draft.kind != "string" {
      problems := problems + [Problem(name, SecretNotString)];
    }
    if draft.secret && draft.fallback != Some(Null) && draft.fallback.Some? && draft.fallback != Some(Str("")) {
      problems := problems + [Problem(name, SecretWithValue)];
    }
    if draft.secret && enumerated {
      problems := problems + [Problem(name, SecretWithChoices)];
    }
    if enumerated && draft.kind != "string" && draft.kind != "enum" {
      problems := problems + [Problem(name, ChoicesNotAllowed)];
    }
  }

  method CheckBounds(draft: KeyDraft, name: string) returns (problems: seq<Problem>)
    ensures forall p :: p in problems <==> p.key == name && BoundFlaw(draft, p.flaw)
  {
    problems := [];
    if (draft.min.Some? || draft.max.Some?) && draft.kind != "int" {
      problems := problems + [Problem(name, BoundsNotAllowed)];
    }
    if draft.min.Some? && !draft.min.value.IsInteger() {
      problems := problems + [Problem(name, MinNotWhole)];
    }
    if draft.max.Some? && !draft.max.value.IsInteger() {
      problems := problems + [Problem(name, MaxNotWhole)];
    }
    if draft.min.Some? && draft.max.Some? && draft.min.value.Finite? && draft.max.value.Finite?
       && draft.max.value.Below(draft.min.value) {
      problems := problems + [Problem(name, MinAboveMax)];
    }
  }

  method CheckDefault(host: Host, draft: KeyDraft, name: string) returns (problems: seq<Problem>)
    ensures forall p :: p in problems <==> p.key == name && DefaultFlaw(host, draft, p.flaw)
  {
    problems := [];
    if draft.fallback.None? || draft.fallback.value.Null? {
      return;
    }
    var value := draft.fallback.value;
    var values := Nonblank(draft.values);
    if |values| > 0 {
      if AsString(host, value) !in values {
        problems := [Problem(name, DefaultNotListed)];
      }
    } else if !IsOfType(draft.kind, value) {
      problems := [Problem(name, DefaultOfWrongType)];
    } else if value.Num? {
      if draft.min.Some? && value.n.Below(draft.min.value) {
        problems := problems + [Problem(name, DefaultBelowMin)];
      }
      if draft.max.Some? && draft.max.value.Below(value.n) {
        problems := problems + [Problem(name, DefaultAboveMax)];
      }
    }
  }

  // ---- the schema file ----

  function At(f: Config, key: string): Option<Yaml> {
    if key in f then Some(f[key]) else None
  }

  function With(f: Config, key: string, v: Option<Yaml>): (r: Config)
    ensures forall k :: At(r, k) == if k == key && v.Some? then v else At(f, k)
  {
    if v.Some? then f[key := v.value] else f
  }

  function AsYaml(n: Option<Number>): Option<Yaml> {
    if n.Some? then Some(Num(n.value)) else None
  }

  function Strings(values: seq<string>): Yaml {
    List(seq(|values|, i requires 0 <= i < |values| => Str(values[i])))
  }

  function Described(d: KeyDraft): Option<string> {
    if Trim(d.description) != "" then Some(Trim(d.description)) else None
  }

  /** What the file declares for one draft. */
  function Declaration(d: KeyDraft): Config {
    var f := map["type" := Str(if Enumerated(d) then "enum" else d.kind)];
    var f := With(f, "values", if Enumerated(d) then Some(Strings(Choices(d))) else None);
    var f := With(f, "min", AsYaml(d.min));
    var f := With(f, "max", AsYaml(d.max));
    var f := With(f, "secret", if d.secret then Some(Bool(true)) else None);
    var f := With(f, "description", if Described(d).Some? then Some(Str(Described(d).value)) else None);
    With(f, "default", if d.secret then None else Given(d))
  }

  function Declarations(drafts: seq<KeyDraft>): Config {
    if drafts == [] then map[]
    else
      var last := drafts[|drafts| - 1];
      Declarations(drafts[..|drafts| - 1])[NameOf(last) := Map(Declaration(last))]
  }

  function SchemaTree(keys: Config): Yaml {
    Map(map["version" := Num(Int(1)), "keys" := Map(keys)])
  }

  function NamesBefore(drafts: seq<KeyDraft>, i: nat): set<string>
    requires i <= |drafts|
  {
    set j: nat | j < i :: NameOf(drafts[j])
  }

  /** No draft has a flaw. */
  ghost predicate Clean(host: Host, drafts: seq<KeyDraft>) {
    forall i: nat, flaw :: i < |drafts| ==> !Has(host, drafts[i], NamesBefore(drafts, i), flaw)
  }

  /** The schema file for these drafts, or every problem with them at once. */
  method BuildSchema(host: Host, drafts: seq<KeyDraft>) returns (r: Result<Content, seq<Problem>>)
    ensures r.Ok? <==> Clean(host, drafts)
    ensures r.Ok? ==> r.value == Stringify(SchemaTree(Declarations(drafts)))
    ensures r.Err? ==> forall p :: p in r.error <==>
                         exists i: nat :: i < |drafts| && p.key == NameOf(drafts[i])
                                          && Has(host, drafts[i], NamesBefore(drafts, i), p.flaw)
  {
    var problems := CheckKeys(host, drafts);
    if problems != [] {
      assert problems[0] in problems;
      return Err(problems);
    }
    assert Clean(host, drafts) by {
      forall i: nat, flaw | i < |drafts|
        ensures !Has(host, drafts[i], NamesBefore(drafts, i), flaw)
      {
        assert Problem(NameOf(drafts[i]), flaw) !in problems;
      }
    }
    var keys: Config := map[];
    for i := 0 to |drafts|
      invariant keys == Declarations(drafts[..i])
    {
      keys := keys[NameOf(drafts[i]) := Map(Declaration(drafts[i]))];
      assert drafts[..i + 1][..i] == drafts[..i];
    }
    assert drafts[..|drafts|] == drafts;
    return Ok(Stringify(SchemaTree(keys)));
  }

  method CheckKeys(host: Host, drafts: seq<KeyDraft>) returns (problems: seq<Problem>)
    ensures forall p :: p in problems <==>
                   exists i: nat :: i < |drafts| && p.key == NameOf(drafts[i])
                                    && Has(host, drafts[i], NamesBefore(drafts, i), p.flaw)
  {
    problems := [];
    var seen: set<string> := {};
    for i := 0 to |drafts|
      invariant seen == NamesBefore(drafts, i)
      invariant forall p :: p in problems <==>
                       exists j: nat :: j < i && p.key == NameOf(drafts[j])
                                        && Has(host, drafts[j], NamesBefore(drafts, j), p.flaw)
    {
      var more;
      more, seen := CheckKey(host, drafts[i], seen);
      problems := problems + more;
    }
  }

  // ---- what the validator makes of it ----

  /** The definition a draft asks for. */
  function Asked(d: KeyDraft): KeyDefinition {
    KeyDefinition(if Enumerated(d) then "enum" else d.kind, if d.secret then None else Given(d),
                  if Enumerated(d) then Some(Choices(d)) else None, d.min, d.max, d.secret,
                  Described(d))
  }

  /**
   * What the form does not check but a schema file needs: an enum lists its values, a listed default
   * is a string, a URL default is an http(s) URL, and no default is spelled like ciphertext.
   */
  predicate Sound(host: Host, d: KeyDraft) {
    && (d.kind == "enum" ==> Enumerated(d))
    && (!d.secret && Given(d).Some? ==>
          && !IsCiphertext(Given(d).value)
          && (Enumerated(d) ==> IsString(Given(d).value))
          && (d.kind == "url" ==> host.isHttpUrl(Given(d).value)))
  }

  lemma SpelledStrings(host: Host, values: seq<string>)
    ensures Spelled(host, Strings(values).items) == values
  {
  }

  lemma DeclarationFields(d: KeyDraft, f: Config)
    requires f == Declaration(d)
    ensures At(f, "type") == Some(Str(if Enumerated(d) then "enum" else d.kind))
    ensures At(f, "values") == if Enumerated(d) then Some(Strings(Choices(d))) else None
    ensures At(f, "min") == AsYaml(d.min) && At(f, "max") == AsYaml(d.max)
    ensures At(f, "secret") == if d.secret then Some(Bool(true)) else None
    ensures At(f, "description") == if Described(d).Some? then Some(Str(Described(d).value)) else None
    ensures At(f, "default") == if d.secret then None else Given(d)
  {
  }

  lemma DeclarationReads(host: Host, d: KeyDraft)
    ensures BareKey(host, Declaration(d)) == Asked(d).(fallback := None)
    ensures At(Declaration(d), "default") == Asked(d).fallback
  {
    DeclarationFields(d, Declaration(d));
    SpelledStrings(host, Choices(d));
  }

  lemma SoundIsSatisfiable(host: Host, d: KeyDraft, seen: set<string>)
    requires forall flaw :: !Has(host, d, seen, flaw)
    ensures Satisfiable(Asked(d)) <==> (d.kind == "enum" ==> Enumerated(d))
  {
    assert !Has(host, d, seen, UnknownType);
    assert !Has(host, d, seen, MinNotWhole) && !Has(host, d, seen, MaxNotWhole) && !Has(host, d, seen, MinAboveMax);
  }

  lemma SoundDefault(host: Host, d: KeyDraft, seen: set<string>)
    requires forall flaw :: !Has(host, d, seen, flaw)
    requires (d.kind == "enum" ==> Enumerated(d)) && !d.secret && Given(d).Some?
    ensures Permits(host, Asked(d).(fallback := None), Given(d).value) <==> Sound(host, d)
  {
    assert !Has(host, d, seen, UnknownType) && !Has(host, d, seen, ChoicesNotAllowed);
    assert !Has(host, d, seen, DefaultNotListed) && !Has(host, d, seen, DefaultOfWrongType);
    assert !Has(host, d, seen, DefaultBelowMin) && !Has(host, d, seen, DefaultAboveMax);
  }

  /** A flawless draft parses exactly when it is sound, and then to the definition it asked for. */
  lemma DeclarationParses(host: Host, d: KeyDraft, seen: set<string>)
    requires forall flaw :: !Has(host, d, seen, flaw)
    ensures ParseKey(host, Map(Declaration(d))) == if Sound(host, d) then Some(Asked(d)) else None
  {
    DeclarationReads(host, d);
    SoundIsSatisfiable(host, d, seen);
    if (d.kind == "enum" ==> Enumerated(d)) && !d.secret && Given(d).Some? {
      SoundDefault(host, d, seen);
    }
  }

  ghost predicate NamesDiffer(drafts: seq<KeyDraft>) {
    forall i: nat :: i < |drafts| ==> NameOf(drafts[i]) !in NamesBefore(drafts, i)
  }

  lemma CleanNamesDiffer(host: Host, drafts: seq<KeyDraft>)
    requires Clean(host, drafts)
    ensures NamesDiffer(drafts)
  {
    forall i: nat | i < |drafts| ensures NameOf(drafts[i]) !in NamesBefore(drafts, i) {
      assert !Has(host, drafts[i], NamesBefore(drafts, i), DeclaredTwice);
    }
  }

  lemma NamesNext(drafts: seq<KeyDraft>, i: nat)
    requires i < |drafts|
    ensures NamesBefore(drafts, i + 1) == NamesBefore(drafts, i) + {NameOf(drafts[i])}
  {
  }

  lemma DeclareOne(drafts: seq<KeyDraft>, i: nat)
    requires i < |drafts|
    ensures Declarations(drafts[..i + 1])
            == Declarations(drafts[..i])[NameOf(drafts[i]) := Map(Declaration(drafts[i]))]
    ensures NamesBefore(drafts, i + 1) == NamesBefore(drafts, i) + {NameOf(drafts[i])}
  {
    var upTo := drafts[..i + 1];
    assert upTo[|upTo| - 1] == drafts[i];
    assert upTo[..|upTo| - 1] == drafts[..i];
    NamesNext(drafts, i);
  }

  /** The schema built from the first `i` drafts holds draft `j`'s own declaration. */
  ghost predicate Built(drafts: seq<KeyDraft>, i: nat, j: nat)
    requires i <= |drafts| && j < |drafts|
  {
    var keys := Declarations(drafts[..i]);
    NameOf(drafts[j]) in keys && keys[NameOf(drafts[j])] == Map(Declaration(drafts[j]))
  }

  /** A later draft never overwrites an earlier one. */
  lemma DeclaredStays(drafts: seq<KeyDraft>, i: nat, j: nat)
    requires NamesDiffer(drafts) && j <= i < |drafts|
    requires j < i ==> Built(drafts, i, j)
    ensures Built(drafts, i + 1, j)
  {
    DeclareOne(drafts, i);
    if j < i {
      assert NameOf(drafts[j]) in NamesBefore(drafts, i);
    }
  }

  lemma {:induction false} DeclaredNames(drafts: seq<KeyDraft>, i: nat)
    requires NamesDiffer(drafts) && i <= |drafts|
    ensures Declarations(drafts[..i]).Keys == NamesBefore(drafts, i)
    ensures forall j: nat :: j < i ==> Built(drafts, i, j)
  {
    if i > 0 {
      DeclaredNames(drafts, i - 1);
      DeclareOne(drafts, i - 1);
      forall j: nat | j < i ensures Built(drafts, i, j) {
        DeclaredStays(drafts, i - 1, j);
      }
    }
  }

  lemma AllDeclared(drafts: seq<KeyDraft>)
    requires NamesDiffer(drafts)
    ensures Declarations(drafts).Keys == NamesBefore(drafts, |drafts|)
    ensures forall j: nat :: j < |drafts| ==>
              NameOf(drafts[j]) in Declarations(drafts)
              && Declarations(drafts)[NameOf(drafts[j])] == Map(Declaration(drafts[j]))
  {
    DeclaredNames(drafts, |drafts|);
    assert drafts[..|drafts|] == drafts;
    forall j: nat | j < |drafts|
      ensures NameOf(drafts[j]) in Declarations(drafts)
              && Declarations(drafts)[NameOf(drafts[j])] == Map(Declaration(drafts[j]))
    {
      assert Built(drafts, |drafts|, j);
    }
  }

  lemma TreeParses(host: Host, raw: Config)
    ensures ParseSchema(host, Stringify(SchemaTree(raw)))
            == if ParseKeys(host, raw).Some? then Some(Schema(ParseKeys(host, raw).value, false)) else None
  {
    var f := SchemaTree(raw).fields;
    assert KnownVersion(f) && "keys" in f && "retiring" !in f;
  }

  predicate AllSound(host: Host, drafts: seq<KeyDraft>) {
    forall i :: 0 <= i < |drafts| ==> Sound(host, drafts[i])
  }

  ghost predicate Defines(keys: Keys, drafts: seq<KeyDraft>) {
    && (forall k :: k in keys ==> exists i :: 0 <= i < |drafts| && NameOf(drafts[i]) == k)
    && (forall i :: 0 <= i < |drafts| ==> NameOf(drafts[i]) in keys && keys[NameOf(drafts[i])] == Asked(drafts[i]))
  }

  lemma DraftsParse(host: Host, drafts: seq<KeyDraft>, raw: Config)
    requires raw.Keys == NamesBefore(drafts, |drafts|)
    requires forall i: nat :: i < |drafts| ==>
               ParseKey(host, raw[NameOf(drafts[i])]) == if Sound(host, drafts[i]) then Some(Asked(drafts[i])) else None
    ensures ParseKeys(host, raw).Some? <==> AllSound(host, drafts)
    ensures ParseKeys(host, raw).Some? ==> Defines(ParseKeys(host, raw).value, drafts)
  {
    forall i: nat | i < |drafts| ensures NameOf(drafts[i]) in raw {
    }
    forall k | k in raw ensures exists i: nat :: i < |drafts| && NameOf(drafts[i]) == k {
    }
    if AllSound(host, drafts) {
      forall k | k in raw ensures ParseKey(host, raw[k]).Some? {
        var j: nat :| j < |drafts| && NameOf(drafts[j]) == k;
      }
    } else {
      var i: nat :| i < |drafts| && !Sound(host, drafts[i]);
      assert ParseKey(host, raw[NameOf(drafts[i])]).None?;
    }
  }

  /**
   * The builder refines the validator: a schema built without complaint is one the validator reads
   * if and only if every draft is sound, and it then defines exactly the keys the drafts asked for.
   */
  lemma BuiltSchemaParses(host: Host, drafts: seq<KeyDraft>)
    requires Clean(host, drafts)
    ensures
      var parsed := ParseSchema(host, Stringify(SchemaTree(Declarations(drafts))));
      && (parsed.Some? <==> AllSound(host, drafts))
      && (parsed.Some? ==> !parsed.value.retiring && Defines(parsed.value.keys, drafts))
  {
    var raw := Declarations(drafts);
    CleanNamesDiffer(host, drafts);
    AllDeclared(drafts);
    forall i: nat | i < |drafts|
      ensures ParseKey(host, raw[NameOf(drafts[i])])
              == if Sound(host, drafts[i]) then Some(Asked(drafts[i])) else None
    {
      DeclarationParses(host, drafts[i], NamesBefore(drafts, i));
    }
    DraftsParse(host, drafts, raw);
    TreeParses(host, raw);
  }

  /** The builder passes drafts the validator refuses: an enum with nothing to choose from is one. */
  lemma BuilderAcceptsTooMuch(host: Host)
    ensures
      var drafts := [KeyDraft("A", "enum", false, [], "", None, None, None)];
      Clean(host, drafts) && ParseSchema(host, Stringify(SchemaTree(Declarations(drafts)))).None?
  {
    var d := KeyDraft("A", "enum", false, [], "", None, None, None);
    assert Trim("A") == "A";
    forall i: nat, flaw | i < |[d]| ensures !Has(host, [d][i], NamesBefore([d], i), flaw) {
      assert NameOf(d) == "A" && Choices(d) == [];
    }
    BuiltSchemaParses(host, [d]);
    assert !Sound(host, [d][0]);
  }
}
