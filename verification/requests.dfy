/** A multi-file write as the engine receives it, and what it means to a database. */
module Requests {
  import opened Wrappers
  import opened Documents
  import opened Storage

  datatype Expect = Anything | Exactly(etag: Option<Etag>)
  /** `content` is absent for a deletion; `valid` is what the caller's validator says of it. */
  datatype Mutation = Mutation(path: Path, content: Option<Content>, expected: Expect,
                               who: Attribution, valid: bool)
  datatype ReadCheck = ReadCheck(path: Path, etag: Option<Etag>)
  datatype ListingCheck = ListingCheck(dir: Dir, names: seq<string>)
  datatype Request = Request(muts: seq<Mutation>, checks: seq<ReadCheck>, listings: seq<ListingCheck>)

  function HashOf(content: Option<Content>): Option<Etag> {
    if content.Some? then Some(Sha256(content.value)) else None
  }

  /** The `.yaml` files of one directory. */
  function Names(files: Files, dir: Dir): set<string> {
    set p | p in files && p.dir == dir && p.yaml :: p.name
  }

  predicate ListingHolds(files: Files, c: ListingCheck) {
    multiset(c.names) == multiset(Names(files, c.dir))
  }

  predicate ReadHolds(files: Files, c: ReadCheck) {
    EtagAt(files, c.path) == c.etag
  }

  predicate ExpectationHolds(etag: Option<Etag>, m: Mutation) {
    m.expected.Anything? || m.expected.etag == etag
  }

  /** Every precondition of the request is true of `files`. */
  ghost predicate Permitted(files: Files, req: Request) {
    && (forall i :: 0 <= i < |req.muts| ==> ExpectationHolds(EtagAt(files, req.muts[i].path), req.muts[i]))
    && ChecksHold(files, req)
  }

  predicate ChecksHold(files: Files, req: Request) {
    && (forall i :: 0 <= i < |req.listings| ==> ListingHolds(files, req.listings[i]))
    && (forall i :: 0 <= i < |req.checks| ==> ReadHolds(files, req.checks[i]))
  }

  /**
   * A request is let through exactly where every file it expects or read is the one it names, present
   * or absent, and every directory it listed holds just those names.
   */
  lemma PermittedIff(files: Files, req: Request)
    requires forall i :: 0 <= i < |req.listings| ==> NoneTwice(req.listings[i].names)
    ensures Permitted(files, req) <==>
            && (forall i :: 0 <= i < |req.muts| && req.muts[i].expected.Exactly? ==>
                  Holds(files, req.muts[i].path, req.muts[i].expected.etag))
            && (forall i :: 0 <= i < |req.checks| ==> Holds(files, req.checks[i].path, req.checks[i].etag))
            && (forall i :: 0 <= i < |req.listings| ==>
                  forall name :: name in req.listings[i].names <==> Path(req.listings[i].dir, name, true) in files)
  {
    forall i | 0 <= i < |req.listings|
      ensures ListingHolds(files, req.listings[i]) <==>
              forall name :: name in req.listings[i].names <==> Path(req.listings[i].dir, name, true) in files
    {
      ListingIff(files, req.listings[i]);
    }
  }

  /** The file is there with this digest, or is not there if there is none. */
  predicate Holds(files: Files, p: Path, etag: Option<Etag>) {
    if etag.Some? then p in files && files[p] == etag.value.content else p !in files
  }

  predicate NoneTwice(names: seq<string>) {
    forall i, j :: 0 <= i < j < |names| ==> names[i] != names[j]
  }

  lemma {:induction false} OnceEach(names: seq<string>, x: string)
    requires NoneTwice(names)
    ensures multiset(names)[x] == if x in names then 1 else 0
  {
    if names != [] {
      var init, last := names[..|names| - 1], names[|names| - 1];
      OnceEach(init, x);
      assert names == init + [last];
      assert last !in init;
    }
  }

  lemma ListingIff(files: Files, c: ListingCheck)
    requires NoneTwice(c.names)
    ensures ListingHolds(files, c) <==> forall name :: name in c.names <==> Path(c.dir, name, true) in files
  {
    var there := Names(files, c.dir);
    forall name ensures name in there <==> Path(c.dir, name, true) in files {
      if Path(c.dir, name, true) in files {
        assert Path(c.dir, name, true).name == name;
      }
    }
    forall name ensures multiset(c.names)[name] == (if name in c.names then 1 else 0) {
      OnceEach(c.names, name);
    }
    forall name ensures multiset(there)[name] == (if name in there then 1 else 0) {
    }
    if multiset(c.names) == multiset(there) {
      forall name ensures name in c.names <==> name in there {
        assert name in multiset(c.names) <==> name in multiset(there);
      }
    }
    if forall name :: name in c.names <==> name in there {
      assert multiset(c.names) == multiset(there);
    }
  }

  predicate Valid(req: Request) {
    forall i :: 0 <= i < |req.muts| ==> req.muts[i].content.Some? ==> req.muts[i].valid
  }

  /** No path is mutated twice; paths are compared as text. */
  predicate DistinctPaths(muts: seq<Mutation>) {
    forall i, j :: 0 <= i < j < |muts| ==> muts[i].path.Render() != muts[j].path.Render()
  }

  /** `databasePath` accepts every path; the tree is flat, so only a leading dot can be wrong with one. */
  predicate LegalPaths(muts: seq<Mutation>) {
    forall i :: 0 <= i < |muts| ==> !DotFile(muts[i].path)
  }

  function TargetsOf(muts: seq<Mutation>): seq<Target> {
    seq(|muts|, i requires 0 <= i < |muts| => Target(muts[i].path, HashOf(muts[i].content), muts[i].who))
  }

  /** The database a request asks for. */
  function Publish(files: Files, muts: seq<Mutation>): Files {
    Overlay(files, TargetsOf(muts))
  }

  /** The mutations that are not already true, given each path's current ETag. */
  function Changed(muts: seq<Mutation>, current: seq<Option<Etag>>): seq<Mutation>
    requires |muts| == |current|
  {
    if muts == [] then []
    else (if HashOf(muts[0].content) != current[0] then [muts[0]] else [])
         + Changed(muts[1..], current[1..])
  }

  ghost predicate Current(files: Files, muts: seq<Mutation>, current: seq<Option<Etag>>) {
    |current| <= |muts| && forall i :: 0 <= i < |current| ==> current[i] == EtagAt(files, muts[i].path)
  }

  lemma {:induction false} ChangedMembers(muts: seq<Mutation>, current: seq<Option<Etag>>)
    requires |muts| == |current| && DistinctPaths(muts)
    ensures forall m :: m in Changed(muts, current) ==> m in muts
    ensures forall i :: 0 <= i < |muts| ==>
              (HashOf(muts[i].content) == current[i] || muts[i] in Changed(muts, current))
    ensures DistinctPaths(Changed(muts, current))
  {
    if muts != [] {
      ChangedMembers(muts[1..], current[1..]);
      var rest := Changed(muts[1..], current[1..]);
      assert muts == [muts[0]] + muts[1..];
      forall i | 0 < i < |muts|
        ensures HashOf(muts[i].content) == current[i] || muts[i] in rest
      {
        assert muts[i] == muts[1..][i - 1] && current[i] == current[1..][i - 1];
      }
      forall m | m in rest
        ensures m.path.Render() != muts[0].path.Render()
      {
        var j :| 0 <= j < |muts[1..]| && muts[1..][j] == m;
        assert muts[j + 1] == m;
      }
    }
  }

  lemma DistinctTargets(muts: seq<Mutation>)
    requires DistinctPaths(muts)
    ensures Distinct(TargetsOf(muts))
  {
    var ts := TargetsOf(muts);
    forall i, j | 0 <= i < j < |ts| ensures ts[i].path != ts[j].path {
      assert muts[i].path.Render() != muts[j].path.Render();
    }
  }

  /** Publishing only what changed publishes everything. */
  lemma PublishChanged(files: Files, muts: seq<Mutation>, current: seq<Option<Etag>>)
    requires |muts| == |current| && DistinctPaths(muts) && Current(files, muts, current)
    ensures Publish(files, Changed(muts, current)) == Publish(files, muts)
    ensures DistinctPaths(Changed(muts, current)) && Distinct(TargetsOf(Changed(muts, current)))
    ensures Distinct(TargetsOf(muts))
  {
    var all, few := TargetsOf(muts), TargetsOf(Changed(muts, current));
    ChangedMembers(muts, current);
    DistinctTargets(muts);
    DistinctTargets(Changed(muts, current));
    forall p
      ensures EtagAt(Overlay(files, few), p) == EtagAt(Overlay(files, all), p)
    {
      OverlayAt(files, few, p);
      OverlayAt(files, all, p);
      if i :| 0 <= i < |all| && all[i].path == p {
        if HashOf(muts[i].content) == current[i] {
          forall k | 0 <= k < |few| && few[k].path == p
            ensures few[k] == all[i]
          {
            InAll(muts, Changed(muts, current), k);
          }
        } else {
          var k :| 0 <= k < |few| && Changed(muts, current)[k] == muts[i];
          assert few[k] == all[i];
        }
      } else {
        forall k | 0 <= k < |few| ensures few[k].path != p {
          InAll(muts, Changed(muts, current), k);
        }
      }
    }
    SameEtagsSameFiles(Overlay(files, few), Overlay(files, all));
  }

  lemma InAll(muts: seq<Mutation>, some: seq<Mutation>, k: nat)
    requires DistinctPaths(muts) && k < |some| && forall m :: m in some ==> m in muts
    ensures exists i :: 0 <= i < |muts| && muts[i] == some[k] && TargetsOf(muts)[i] == TargetsOf(some)[k]
    ensures forall i :: 0 <= i < |muts| && muts[i].path == some[k].path ==> TargetsOf(muts)[i] == TargetsOf(some)[k]
  {
    assert some[k] in muts;
    var i :| 0 <= i < |muts| && muts[i] == some[k];
    assert TargetsOf(muts)[i] == TargetsOf(some)[k];
    forall j | 0 <= j < |muts| && muts[j].path == some[k].path
      ensures j == i
    {
      assert muts[j].path.Render() == muts[i].path.Render();
    }
  }

  /** A request with nothing to change asks for the database as it is. */
  lemma {:induction false} UnchangedIsIdentity(files: Files, muts: seq<Mutation>, current: seq<Option<Etag>>)
    requires |muts| == |current| && DistinctPaths(muts) && Current(files, muts, current)
    ensures Changed(muts, current) == [] <==> Publish(files, muts) == files
  {
    PublishChanged(files, muts, current);
    ChangedMembers(muts, current);
    var changed := Changed(muts, current);
    if changed == [] {
      assert TargetsOf(changed) == [];
    } else {
      var m := changed[0];
      ChangedDiffer(muts, current, 0);
      InAll(muts, changed, 0);
      var i :| 0 <= i < |muts| && muts[i] == m && HashOf(m.content) != current[i];
      OverlayAt(files, TargetsOf(muts), m.path);
      assert TargetsOf(muts)[i].path == m.path;
      assert EtagAt(files, m.path) == current[i];
    }
  }

  lemma {:induction false} ChangedDiffer(muts: seq<Mutation>, current: seq<Option<Etag>>, k: nat)
    requires |muts| == |current| && k < |Changed(muts, current)|
    ensures exists i :: 0 <= i < |muts| && muts[i] == Changed(muts, current)[k]
                        && HashOf(muts[i].content) != current[i]
  {
    var one := if HashOf(muts[0].content) != current[0] then [muts[0]] else [];
    if k >= |one| {
      ChangedDiffer(muts[1..], current[1..], k - |one|);
      var j :| 0 <= j < |muts[1..]| && muts[1..][j] == Changed(muts[1..], current[1..])[k - |one|]
               && HashOf(muts[1..][j].content) != current[1..][j];
      assert muts[j + 1] == Changed(muts, current)[k] && current[j + 1] == current[1..][j];
    } else {
      assert muts[0] == Changed(muts, current)[k];
    }
  }
}
