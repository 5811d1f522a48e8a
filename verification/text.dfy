/** The string order behind every `.sort()`, and the canonical listing of a set of strings. */
module Text {

  /**
   * Order by scalar value, a proper prefix first. JavaScript compares UTF-16 code units, which is the
   * same but between a character beyond U+FFFF and one from U+E000 to U+FFFF: there it sorts the former
   * first.
   */
  predicate Less(a: string, b: string) {
    if b == "" then false
    else if a == "" then true
    else if a[0] != b[0] then a[0] < b[0]
    else Less(a[1..], b[1..])
  }

  lemma {:induction false} LessIsIrreflexive(a: string)
    ensures !Less(a, a)
  {
    if a != "" {
      LessIsIrreflexive(a[1..]);
    }
  }

  lemma {:induction false} LessIsTransitive(a: string, b: string, c: string)
    requires Less(a, b) && Less(b, c)
    ensures Less(a, c)
  {
    if a != "" && a[0] == b[0] == c[0] {
      LessIsTransitive(a[1..], b[1..], c[1..]);
    }
  }

  lemma {:induction false} LessIsTotal(a: string, b: string)
    ensures a == b || Less(a, b) || Less(b, a)
  {
    if a != "" && b != "" && a[0] == b[0] {
      LessIsTotal(a[1..], b[1..]);
      assert a == [a[0]] + a[1..] && b == [b[0]] + b[1..];
    }
  }

  /** Nothing is both before and after. */
  lemma LessIsAsymmetric(a: string, b: string)
    requires Less(a, b)
    ensures !Less(b, a) && a != b
  {
    LessIsIrreflexive(a);
    if Less(b, a) {
      LessIsTransitive(a, b, a);
    }
  }

  ghost predicate Ascending(s: seq<string>) {
    forall i, j :: 0 <= i < j < |s| ==> Less(s[i], s[j])
  }

  /** Two ascending lists of one set are one list. */
  lemma {:induction false} AscendingIsUnique(s: seq<string>, t: seq<string>)
    requires Ascending(s) && Ascending(t)
    requires forall x :: x in s <==> x in t
    ensures s == t
  {
    assert t != [] ==> t[0] in t;
    if s != [] {
      assert s[0] in t;
      assert t[0] in s;
      if s[0] != t[0] {
        var i :| 0 <= i < |t| && t[i] == s[0];
        var j :| 0 <= j < |s| && s[j] == t[0];
        LessIsAsymmetric(s[0], t[0]);
      }
      TailMembers(s);
      TailMembers(t);
      AscendingIsUnique(s[1..], t[1..]);
      assert s == [s[0]] + s[1..] && t == [t[0]] + t[1..];
    }
  }

  lemma TailMembers(s: seq<string>)
    requires Ascending(s) && s != []
    ensures Ascending(s[1..])
    ensures forall x :: x in s[1..] <==> x in s && x != s[0]
  {
    LessIsIrreflexive(s[0]);
    assert s == [s[0]] + s[1..];
    forall x | x in s && x != s[0]
      ensures x in s[1..]
    {
      var i :| 0 <= i < |s| && s[i] == x;
      assert s[1..][i - 1] == x;
    }
  }

  /** One step of sorting: `x` placed in an ascending list, once. */
  function Insert(x: string, s: seq<string>): (r: seq<string>)
    requires Ascending(s)
    ensures Ascending(r)
    ensures forall y :: y in r <==> y == x || y in s
  {
    if s == [] then [x]
    else if x == s[0] then s
    else if Less(x, s[0]) then
      assert forall j :: 0 <= j < |s| ==> Less(x, s[j]) by {
        forall j | 0 < j < |s| ensures Less(x, s[j]) { LessIsTransitive(x, s[0], s[j]); }
      }
      [x] + s
    else
      LessIsTotal(x, s[0]);
      TailMembers(s);
      var rest := Insert(x, s[1..]);
      assert forall y :: y in rest ==> Less(s[0], y) by {
        forall y | y in rest ensures Less(s[0], y) {
          if y in s[1..] { var i :| 0 <= i < |s[1..]| && s[1..][i] == y; }
        }
      }
      assert s == [s[0]] + s[1..];
      [s[0]] + rest
  }

  /** `[...new Set(xs)].sort()`. */
  function SortedSet(xs: seq<string>): (r: seq<string>)
    ensures Ascending(r)
    ensures forall y :: y in r <==> y in xs
  {
    if xs == [] then [] else
      assert xs == [xs[0]] + xs[1..];
      Insert(xs[0], SortedSet(xs[1..]))
  }

  /** The ascending list of a finite set. */
  ghost function Listed(names: set<string>): (r: seq<string>)
    ensures Ascending(r)
    ensures forall y :: y in r <==> y in names
    decreases |names|
  {
    if names == {} then [] else
      var x :| x in names;
      Insert(x, Listed(names - {x}))
  }

  /** Ascending lists hold nothing twice, so their multiset is their set. */
  lemma AscendingIsDistinct(s: seq<string>, i: nat, j: nat)
    requires Ascending(s) && i < j < |s|
    ensures s[i] != s[j]
  {
    LessIsIrreflexive(s[i]);
  }

  // Digits differ or the tails decide: comparing equal-length halves first decides the whole.
  lemma {:induction false} LessExtends(a: string, b: string, c: string, d: string)
    requires |a| == |b| && Less(a, b)
    ensures Less(a + c, b + d)
  {
    if a[0] == b[0] {
      LessExtends(a[1..], b[1..], c, d);
      assert (a + c)[1..] == a[1..] + c && (b + d)[1..] == b[1..] + d;
    }
  }

  lemma {:induction false} LessPrefixed(a: string, b: string, c: string)
    requires Less(b, c)
    ensures Less(a + b, a + c)
  {
    if a == "" {
      assert a + b == b && a + c == c;
    } else {
      LessPrefixed(a[1..], b, c);
      assert (a + b)[1..] == a[1..] + b && (a + c)[1..] == a[1..] + c;
    }
  }
}
