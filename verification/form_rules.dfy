/** What the new-key form accepts, rule by rule, and what the keys it declares say. */
module FormRules {
  import opened Wrappers
  import opened Documents
  import opened Schemas
  import opened Builder

  /** `Trim` takes the space off both ends and nothing else. */
  lemma {:induction false} TrimIs(s: string)
    ensures exists i, j :: 0 <= i <= j <= |s| && Trim(s) == s[i..j]
                           && (forall k :: 0 <= k < i || j <= k < |s| ==> IsSpace(s[k]))
    ensures Trim(s) != "" ==> !IsSpace(Trim(s)[0]) && !IsSpace(Trim(s)[|Trim(s)| - 1])
  {
    var i := TrimStartIs(s);
    var j := TrimEndIs(s[i..]);
    assert s[i..][..j] == s[i..i + j];
    assert forall k :: i + j <= k < |s| ==> s[k] == s[i..][k - i];
    if Trim(s) != "" {
      assert Trim(s)[0] == s[i..][0];
    }
  }

  lemma {:induction false} TrimStartIs(s: string) returns (i: nat)
    ensures i <= |s| && TrimStart(s) == s[i..] && forall k :: 0 <= k < i ==> IsSpace(s[k])
    ensures TrimStart(s) != "" ==> !IsSpace(TrimStart(s)[0])
  {
    i := 0;
    if s != "" && IsSpace(s[0]) {
      i := TrimStartIs(s[1..]);
      assert s[1..][i..] == s[i + 1..];
      assert forall k :: 0 < k < i + 1 ==> s[k] == s[1..][k - 1];
      i := i + 1;
    }
  }

  lemma {:induction false} TrimEndIs(s: string) returns (j: nat)
    ensures j <= |s| && TrimEnd(s) == s[..j] && forall k :: j <= k < |s| ==> IsSpace(s[k])
    ensures TrimEnd(s) != "" ==> !IsSpace(TrimEnd(s)[|TrimEnd(s)| - 1])
  {
    j := |s|;
    if s != "" && IsSpace(s[|s| - 1]) {
      var n := |s| - 1;
      j := TrimEndIs(s[..n]);
      assert s[..n][..j] == s[..j];
      assert forall k :: j <= k < n ==> s[k] == s[..n][k];
    }
  }

  /** Some listed value is more than space. */
  ghost predicate Lists(d: KeyDraft) {
    exists i :: 0 <= i < |d.values| && Trim(d.values[i]) != ""
  }

  lemma {:induction false} NonblankAre(values: seq<string>, v: string)
    ensures v in Nonblank(values) <==> v in values && Trim(v) != ""
  {
    if values != [] {
      NonblankAre(values[1..], v);
      assert values == [values[0]] + values[1..];
    }
  }

  lemma ListsIff(d: KeyDraft)
    ensures Enumerated(d) <==> Lists(d)
  {
    if Enumerated(d) {
      NonblankAre(d.values, Choices(d)[0]);
    }
    if i :| 0 <= i < |d.values| && Trim(d.values[i]) != "" {
      NonblankAre(d.values, d.values[i]);
    }
  }

  /** A key's name: a capital letter, then capitals, digits and underscores. */
  ghost predicate NamedWell(name: string) {
    name != "" && 'A' <= name[0] <= 'Z' && forall c :: c in name ==> 'A' <= c <= 'Z' || '0' <= c <= '9' || c == '_'
  }

  /** A secret is a plain string: nothing listed, and no default but the empty one. */
  ghost predicate SecretWell(d: KeyDraft) {
    d.secret ==> d.kind == "string" && !Lists(d)
                 && (d.fallback.None? || d.fallback == Some(Null) || d.fallback == Some(Str("")))
  }

  /** Bounds are whole, in order, and only on whole numbers. */
  ghost predicate BoundedWell(d: KeyDraft) {
    && (d.min.Some? || d.max.Some? ==> d.kind == "int")
    && (d.min.Some? ==> exists n: int :: d.min.value == Int(n))
    && (d.max.Some? ==> exists n: int :: d.max.value == Int(n))
    && (d.min.Some? && d.max.Some? && d.min.value.Finite? && d.max.value.Finite? ==> d.min.value.r <= d.max.value.r)
  }

  /** A default is among the listed values, or of the type and within the bounds. */
  ghost predicate DefaultWell(host: Host, d: KeyDraft) {
    d.fallback.Some? && d.fallback != Some(Null) ==>
      var v := d.fallback.value;
      if Lists(d) then exists i :: 0 <= i < |d.values| && Trim(d.values[i]) != "" && d.values[i] == AsString(host, v)
      else if d.kind == "int" then
        exists n: int :: v == Num(Int(n)) && AtLeast(n as real, d.min) && AtMost(n as real, d.max)
      else if d.kind == "bool" then v.Bool?
      else if d.kind == "string[]" then v.List? && forall x :: x in v.items ==> x.Str? || x.Source? || x.Cipher?
      else v.Str? || v.Source? || v.Cipher?
  }

  /** What the form asks of a draft, whose name no earlier draft has. */
  ghost predicate WellFormed(host: Host, d: KeyDraft) {
    && NamedWell(NameOf(d)) && d.kind in KEY_TYPES
    && SecretWell(d) && (Lists(d) ==> d.kind == "string" || d.kind == "enum")
    && BoundedWell(d) && DefaultWell(host, d)
  }

  lemma WholeIff(n: Number)
    ensures n.IsInteger() <==> exists i: int :: n == Int(i)
  {
    if n.IsInteger() {
      assert n == Int(n.r.Floor);
    }
    if i: int :| n == Int(i) {
      assert (i as real).Floor == i;
    }
  }

  lemma NameWellIff(name: string)
    ensures IsKeyName(name) && name !in METADATA <==> NamedWell(name)
  {
    assert METADATA == {"version", "sops"};
    if name != "" {
      assert forall i :: 0 <= i < |name| ==> name[i] in name;
    }
  }

  lemma BoundsWellIff(d: KeyDraft)
    ensures (forall flaw :: !BoundFlaw(d, flaw)) <==> BoundedWell(d)
  {
    if d.min.Some? { WholeIff(d.min.value); }
    if d.max.Some? { WholeIff(d.max.value); }
    if forall flaw :: !BoundFlaw(d, flaw) {
      assert !BoundFlaw(d, BoundsNotAllowed) && !BoundFlaw(d, MinNotWhole) && !BoundFlaw(d, MaxNotWhole)
             && !BoundFlaw(d, MinAboveMax);
    }
  }

  lemma ShapeWellIff(d: KeyDraft)
    ensures (forall flaw :: !ShapeFlaw(d, flaw)) <==> SecretWell(d) && (Lists(d) ==> d.kind == "string" || d.kind == "enum")
  {
    ListsIff(d);
    if forall flaw :: !ShapeFlaw(d, flaw) {
      assert !ShapeFlaw(d, SecretNotString) && !ShapeFlaw(d, SecretWithValue) && !ShapeFlaw(d, SecretWithChoices)
             && !ShapeFlaw(d, ChoicesNotAllowed);
    }
  }

  lemma DefaultWellIff(host: Host, d: KeyDraft)
    requires d.kind in KEY_TYPES && BoundedWell(d)
    ensures (forall flaw :: !DefaultFlaw(host, d, flaw)) <==> DefaultWell(host, d)
  {
    ListsIff(d);
    if forall flaw :: !DefaultFlaw(host, d, flaw) {
      assert !DefaultFlaw(host, d, DefaultNotListed) && !DefaultFlaw(host, d, DefaultOfWrongType)
             && !DefaultFlaw(host, d, DefaultBelowMin) && !DefaultFlaw(host, d, DefaultAboveMax);
    }
    if Given(d).Some? {
      var v := Given(d).value;
      NonblankAre(d.values, AsString(host, v));
      if v.Num? {
        WholeIff(v.n);
      }
    }
  }

  lemma FlawlessIff(host: Host, d: KeyDraft, seen: set<string>)
    ensures (forall flaw :: !Has(host, d, seen, flaw)) <==> WellFormed(host, d) && NameOf(d) !in seen
  {
    NameWellIff(NameOf(d));
    ShapeWellIff(d);
    BoundsWellIff(d);
    if d.kind in KEY_TYPES && BoundedWell(d) {
      DefaultWellIff(host, d);
    }
    if forall flaw :: !Has(host, d, seen, flaw) {
      assert !Has(host, d, seen, BadName) && !Has(host, d, seen, ReservedName) && !Has(host, d, seen, DeclaredTwice)
             && !Has(host, d, seen, UnknownType);
      forall flaw ensures !ShapeFlaw(d, flaw) && !BoundFlaw(d, flaw) && !DefaultFlaw(host, d, flaw) {
        assert !Has(host, d, seen, flaw);
      }
    }
  }

  /** The form passes exactly the lists of well-formed drafts under different names. */
  lemma CleanIff(host: Host, drafts: seq<KeyDraft>)
    ensures Clean(host, drafts) <==>
            && (forall i :: 0 <= i < |drafts| ==> WellFormed(host, drafts[i]))
            && (forall i, j :: 0 <= i < j < |drafts| ==> NameOf(drafts[i]) != NameOf(drafts[j]))
  {
    forall i: nat | i < |drafts|
      ensures (forall flaw :: !Has(host, drafts[i], NamesBefore(drafts, i), flaw)) <==>
              WellFormed(host, drafts[i]) && NameOf(drafts[i]) !in NamesBefore(drafts, i)
    {
      FlawlessIff(host, drafts[i], NamesBefore(drafts, i));
    }
    if Clean(host, drafts) {
      forall i, j | 0 <= i < j < |drafts| ensures NameOf(drafts[i]) != NameOf(drafts[j]) {
        assert NameOf(drafts[j]) !in NamesBefore(drafts, j);
      }
    }
  }

  /** What a draft's definition says, field by field: listed values make it an enum, and a secret has no default. */
  lemma AskedSays(d: KeyDraft)
    ensures Asked(d).kind == if Lists(d) then "enum" else d.kind
    ensures Asked(d).values.Some? <==> Lists(d)
    ensures Lists(d) ==> forall v :: v in Asked(d).values.value <==> v in d.values && Trim(v) != ""
    ensures Asked(d).min == d.min && Asked(d).max == d.max && Asked(d).secret == d.secret
    ensures Asked(d).description == if Trim(d.description) == "" then None else Some(Trim(d.description))
    ensures Asked(d).fallback == if d.secret || d.fallback == Some(Null) then None else d.fallback
  {
    ListsIff(d);
    forall v ensures v in Choices(d) <==> v in d.values && Trim(v) != "" {
      NonblankAre(d.values, v);
    }
  }
}
