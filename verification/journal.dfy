/**
 * The database directory as objects: the file primitives, the transaction journal, the engine.
 * Each method's steps are recorded in a ghost trace and proved to be the scripts of `Recovery`, so
 * what is proved of a cut script holds of a method killed half-way.
 */
module Journal {
  import opened Wrappers
  import opened Documents
  import opened Storage
  import opened Recovery
  import opened Requests

  /** The files under the database root; each method is one durable primitive of `FileWriter`. */
  class FileWriter {
    var files: Files
    var revision: nat
    var dirs: map<TxId, TxDir>
    var log: seq<Event>
    var strays: Files
    ghost var trace: seq<Step>

    ghost function State(): Disk
      reads this
    {
      Disk(files, revision, dirs, log, strays)
    }

    constructor (d: Disk)
      ensures State() == d && trace == []
    {
      files, revision, dirs, log, strays := d.files, d.revision, d.dirs, d.log, d.strays;
      trace := [];
    }

    function ReadOptional(p: Path): (content: Option<Content>)
      reads this
      ensures HashOf(content) == EtagAt(files, p)
    {
      if p in files then Some(files[p]) else None
    }

    function ReadStage(id: TxId, i: nat): Option<Content>
      reads this
    {
      if id in dirs && i in dirs[id].stages then Some(dirs[id].stages[i]) else None
    }

    method MakeDir(id: TxId)
      requires id !in dirs
      modifies this
      ensures State() == old(State()).(dirs := old(dirs)[id := TxDir(map[], None)]) && trace == old(trace)
    {
      dirs := dirs[id := TxDir(map[], None)];
    }

    method WriteStage(id: TxId, i: nat, content: Content)
      requires id in dirs
      modifies this
      ensures trace == old(trace)
      ensures State() == old(State()).(dirs := old(dirs)[id := old(dirs)[id].(stages := old(dirs)[id].stages[i := content])])
    {
      dirs := dirs[id := dirs[id].(stages := dirs[id].stages[i := content])];
    }

    method WriteIntent(id: TxId, intent: Intent)
      requires id in dirs
      modifies this
      ensures State() == Exec(old(State()), PutIntent(id, intent)) && trace == old(trace) + [PutIntent(id, intent)]
    {
      dirs := dirs[id := dirs[id].(intent := Some(intent))];
      trace := trace + [PutIntent(id, intent)];
    }

    /** `install`: the stage renamed over the live path. */
    method InstallStage(id: TxId, i: nat, p: Path)
      requires id in dirs && i in dirs[id].stages
      modifies this
      ensures State() == Exec(old(State()), Install(id, i, p)) && trace == old(trace) + [Install(id, i, p)]
    {
      files := files[p := dirs[id].stages[i]];
      dirs := dirs[id := dirs[id].(stages := dirs[id].stages - {i})];
      trace := trace + [Install(id, i, p)];
    }

    method RemoveFile(id: TxId, i: nat, p: Path)
      modifies this
      ensures State() == Exec(old(State()), Remove(id, i, p)) && trace == old(trace) + [Remove(id, i, p)]
    {
      files := files - {p};
      trace := trace + [Remove(id, i, p)];
    }

    /** `open` with `wx`, the text, and `sync`; the name ends in a new UUID. */
    method CreateTemp(id: TxId, temp: Temp)
      requires temp.Path() !in strays
      modifies this
      ensures State() == Exec(old(State()), OpenTemp(id, temp)) && trace == old(trace) + [OpenTemp(id, temp)]
    {
      strays := strays[temp.Path() := temp.held];
      trace := trace + [OpenTemp(id, temp)];
    }

    method RenameTemp(id: TxId, n: nat, temp: Temp)
      requires temp.Path() in strays
      modifies this
      ensures State() == Exec(old(State()), PutRevision(id, n, temp)) && trace == old(trace) + [PutRevision(id, n, temp)]
    {
      strays := strays - {temp.Path()};
      revision := n;
      trace := trace + [PutRevision(id, n, temp)];
    }

    /** `write` of `.revision`: the temporary beside it, then the rename. */
    method WriteRevision(id: TxId, n: nat, temp: Temp)
      requires temp.Path() !in strays
      modifies this
      ensures trace == old(trace) + [OpenTemp(id, temp), PutRevision(id, n, temp)]
      ensures State() == old(State()).(revision := n)
    {
      CreateTemp(id, temp);
      RenameTemp(id, n, temp);
      assert strays == old(strays);
    }

    /** `onWrite`, whose durable effect is one line of the attribution log. */
    method Append(e: Event)
      modifies this
      ensures State() == Exec(old(State()), Emit(e)) && trace == old(trace) + [Emit(e)]
    {
      log := log + [e];
      trace := trace + [Emit(e)];
    }

    method UnlinkItem(id: TxId, item: Item)
      modifies this
      ensures State() == Exec(old(State()), Unlink(id, item)) && trace == old(trace) + [Unlink(id, item)]
    {
      if id in dirs {
        dirs := dirs[id := if item.IntentItem? then dirs[id].(intent := None)
                           else dirs[id].(stages := dirs[id].stages - {item.index})];
      }
      trace := trace + [Unlink(id, item)];
    }

    method RemoveDirectory(id: TxId)
      modifies this
      ensures State() == Exec(old(State()), RemoveDir(id)) && trace == old(trace) + [RemoveDir(id)]
    {
      dirs := dirs - {id};
      trace := trace + [RemoveDir(id)];
    }
  }

  /** Taking `script` from `d`, with `trace` behind it, comes to `end` with `total` behind it. */
  ghost predicate Towards(d: Disk, trace: seq<Step>, script: seq<Step>, end: Disk, total: seq<Step>) {
    trace + script == total && Run(d, script) == end
  }

  lemma TowardsStep(d: Disk, trace: seq<Step>, one: seq<Step>, rest: seq<Step>, end: Disk, total: seq<Step>)
    requires Towards(d, trace, one + rest, end, total)
    ensures Towards(Run(d, one), trace + one, rest, end, total)
  {
    RunConcat(d, one, rest);
    assert trace + (one + rest) == (trace + one) + rest;
  }

  lemma TowardsEnd(d: Disk, trace: seq<Step>, end: Disk, total: seq<Step>)
    requires Towards(d, trace, [], end, total)
    ensures d == end && trace == total
  {
    assert trace + [] == trace;
  }

  function DirOf(d: Disk, id: TxId): TxDir {
    if id in d.dirs then d.dirs[id] else TxDir(map[], None)
  }

  /** Whether every payload an intent still needs is there and intact. */
  ghost predicate PayloadsPresent(d: Disk, id: TxId, ts: seq<Target>) {
    forall i :: 0 <= i < |ts| ==> Available(d.files, DirOf(d, id), i, ts[i])
  }

  class TransactionJournal {
    const fs: FileWriter

    constructor (fs: FileWriter)
      ensures this.fs == fs
    {
      this.fs := fs;
    }

    /** A directory with every payload staged under its number, and no intent. */
    method Prepare(id: TxId, muts: seq<Mutation>)
      requires id !in fs.dirs
      modifies fs
      ensures fs.trace == old(fs.trace)
      ensures exists stages ::
                && fs.State() == old(fs.State()).(dirs := old(fs.dirs)[id := TxDir(stages, None)])
                && (forall i :: i in stages <==> 0 <= i < |muts| && muts[i].content.Some?)
                && forall i :: i in stages ==> i < |muts| && muts[i].content == Some(stages[i])
    {
      fs.MakeDir(id);
      for i := 0 to |muts|
        invariant fs.trace == old(fs.trace) && id in fs.dirs && fs.dirs[id].intent == None
        invariant fs.State() == old(fs.State()).(dirs := old(fs.dirs)[id := TxDir(fs.dirs[id].stages, None)])
        invariant forall k :: k in fs.dirs[id].stages <==> 0 <= k < i && muts[k].content.Some?
        invariant forall k :: k in fs.dirs[id].stages ==> k < |muts| && muts[k].content == Some(fs.dirs[id].stages[k])
      {
        if muts[i].content.Some? {
          fs.WriteStage(id, i, muts[i].content.value);
        }
      }
    }

    /**
     * Fails before touching any target if a payload is missing or corrupt, and otherwise ends with
     * every target in place, taking exactly the steps of `ApplyScript`.
     */
    method Apply(id: TxId, it: Intent) returns (ok: bool)
      requires Distinct(it.targets)
      modifies fs
      ensures ok <==> PayloadsPresent(old(fs.State()), id, it.targets)
      ensures !ok ==> fs.State() == old(fs.State()) && fs.trace == old(fs.trace)
      ensures ok ==>
                var script := ApplyScript(old(fs.State()), id, it.targets, 0);
                fs.trace == old(fs.trace) + script && fs.State() == Run(old(fs.State()), script)
      ensures ok ==> AllLanded(fs.files, it.targets)
    {
      var ts := it.targets;
      ok := CheckPayloads(id, ts);
      if !ok {
        return;
      }
      ghost var whole := ApplyScript(fs.State(), id, ts, 0);
      ghost var end, total := Run(fs.State(), whole), fs.trace + whole;
      for i := 0 to |ts|
        invariant Towards(fs.State(), fs.trace, ApplyScript(fs.State(), id, ts, i), end, total)
        invariant forall k :: 0 <= k < i ==> Landed(fs.files, ts[k])
        invariant forall k :: i <= k < |ts| ==> Available(fs.files, DirOf(fs.State(), id), k, ts[k])
      {
        ghost var before, trace := fs.State(), fs.trace;
        PutInPlace(id, i, ts[i]);
        ApplyTakes(before, fs.State(), id, ts, i);
        TowardsStep(before, trace, ApplyOne(before.files, id, i, ts[i]),
                    ApplyScript(fs.State(), id, ts, i + 1), end, total);
      }
      TowardsEnd(fs.State(), fs.trace, end, total);
    }

    /** The first loop of `apply`: read-only, and decides whether the second may start. */
    method CheckPayloads(id: TxId, ts: seq<Target>) returns (ok: bool)
      ensures ok <==> PayloadsPresent(fs.State(), id, ts)
    {
      for i := 0 to |ts|
        invariant forall k :: 0 <= k < i ==> Available(fs.files, DirOf(fs.State(), id), k, ts[k])
      {
        if ts[i].hash.Some? && HashOf(fs.ReadOptional(ts[i].path)) != ts[i].hash {
          var staged := fs.ReadStage(id, i);
          if HashOf(staged) != ts[i].hash {
            assert !Available(fs.files, DirOf(fs.State(), id), i, ts[i]);
            return false;
          }
        }
      }
      return true;
    }

    /** One turn of the second loop. */
    method PutInPlace(id: TxId, i: nat, t: Target)
      requires Available(fs.files, DirOf(fs.State(), id), i, t)
      modifies fs
      ensures
        var one := ApplyOne(old(fs.files), id, i, t);
        fs.trace == old(fs.trace) + one && fs.State() == Run(old(fs.State()), one)
    {
      var current := fs.ReadOptional(t.path);
      if t.hash.None? {
        if current.Some? {
          OneStep(fs.State(), Remove(id, i, t.path));
          fs.RemoveFile(id, i, t.path);
        }
      } else if HashOf(current) != t.hash {
        OneStep(fs.State(), Install(id, i, t.path));
        fs.InstallStage(id, i, t.path);
      }
    }

    /** `rm -r`, which unlinks the entries in some order and then the directory. */
    method Complete(id: TxId, order: seq<Item>)
      modifies fs
      ensures fs.trace == old(fs.trace) + SweepScript(id, order)
      ensures fs.State() == old(fs.State()).(dirs := old(fs.dirs) - {id})
    {
      for k := 0 to |order|
        invariant fs.State() == old(fs.State()).(dirs := fs.dirs) && fs.dirs - {id} == old(fs.dirs) - {id}
        invariant fs.trace + SweepScript(id, order[k..]) == old(fs.trace) + SweepScript(id, order)
      {
        ghost var trace := fs.trace;
        fs.UnlinkItem(id, order[k]);
        assert order[k..][1..] == order[k + 1..];
        assert trace + ([Unlink(id, order[k])] + SweepScript(id, order[k + 1..]))
            == fs.trace + SweepScript(id, order[k + 1..]);
      }
      fs.RemoveDirectory(id);
      assert order[|order|..] == [];
    }

    /** A transaction without an intent was never published. */
    method SweepIfOrphan(e: Entry) returns (intended: bool)
      modifies fs
      ensures
        var one := Orphan(old(fs.State()), e);
        fs.trace == old(fs.trace) + one && fs.State() == Run(old(fs.State()), one)
      ensures intended <==> Pending(old(fs.State()), e.id)
      ensures SameIntents(old(fs.State()), fs.State())
    {
      intended := false;
      if e.id in fs.dirs {
        if fs.dirs[e.id].intent.Some? {
          intended := true;
        } else {
          SweepRuns(fs.State(), e.id, e.how.order);
          Complete(e.id, e.how.order);
        }
      }
    }

    /** The directory listing, swept of transactions with no intent; the others, as listed. */
    method CollectIntents(listing: seq<Entry>) returns (found: seq<Entry>)
      modifies fs
      ensures fs.trace == old(fs.trace) + OrphanScript(old(fs.State()), listing)
      ensures fs.State() == Run(old(fs.State()), OrphanScript(old(fs.State()), listing))
      ensures found == Intended(old(fs.State()), listing)
      ensures SameIntents(old(fs.State()), fs.State())
    {
      found := [];
      ghost var start, whole := fs.State(), OrphanScript(fs.State(), listing);
      ghost var end, total := Run(start, whole), fs.trace + whole;
      for k := 0 to |listing|
        invariant Towards(fs.State(), fs.trace, OrphanScript(fs.State(), listing[k..]), end, total)
        invariant SameIntents(start, fs.State())
        invariant found + Intended(start, listing[k..]) == Intended(start, listing)
      {
        var e := listing[k];
        ghost var before, trace := fs.State(), fs.trace;
        assert listing[k..][0] == e && listing[k..][1..] == listing[k + 1..];
        var intended := SweepIfOrphan(e);
        FoundStep(start, listing, k, found);
        if intended {
          found := found + [e];
        }
        OrphanTakes(before, listing[k..]);
        TowardsStep(before, trace, Orphan(before, e), OrphanScript(fs.State(), listing[k + 1..]), end, total);
      }
      assert listing[|listing|..] == [] && found + [] == found;
      TowardsEnd(fs.State(), fs.trace, end, total);
    }

    /** `pending`: what `CollectIntents` found, lowest revision first. */
    method PendingIntents(listing: seq<Entry>) returns (sorted: seq<Entry>)
      modifies fs
      ensures fs.trace == old(fs.trace) + OrphanScript(old(fs.State()), listing)
      ensures fs.State() == Run(old(fs.State()), OrphanScript(old(fs.State()), listing))
      ensures multiset(sorted) == multiset(Intended(old(fs.State()), listing))
      ensures SameIntents(old(fs.State()), fs.State()) && InOrder(fs.State(), sorted)
    {
      var found := CollectIntents(listing);
      IntendedArePending(old(fs.State()), listing);
      sorted := SortByRevision(fs, found);
    }
  }

  lemma FoundStep(d: Disk, listing: seq<Entry>, k: nat, found: seq<Entry>)
    requires k < |listing| && found + Intended(d, listing[k..]) == Intended(d, listing)
    ensures (if Pending(d, listing[k].id) then found + [listing[k]] else found) + Intended(d, listing[k + 1..])
            == Intended(d, listing)
  {
    assert listing[k..][0] == listing[k] && listing[k..][1..] == listing[k + 1..];
    if Pending(d, listing[k].id) {
      assert found + ([listing[k]] + Intended(d, listing[k + 1..])) == (found + [listing[k]]) + Intended(d, listing[k + 1..]);
    }
  }

  /** The listed transactions that recorded an intent. */
  function Intended(d: Disk, listing: seq<Entry>): seq<Entry> {
    if listing == [] then []
    else (if Pending(d, listing[0].id) then [listing[0]] else []) + Intended(d, listing[1..])
  }

  lemma {:induction false} IntendedArePending(d: Disk, listing: seq<Entry>)
    ensures forall e :: e in Intended(d, listing) ==> e in listing && Pending(d, e.id)
  {
    if listing != [] {
      IntendedArePending(d, listing[1..]);
    }
  }

  function Orphan(d: Disk, e: Entry): seq<Step> {
    if e.id in d.dirs && !Pending(d, e.id) then SweepScript(e.id, e.how.order) else []
  }

  lemma OrphanTakes(d: Disk, listing: seq<Entry>)
    requires listing != []
    ensures OrphanScript(d, listing)
         == Orphan(d, listing[0]) + OrphanScript(Run(d, Orphan(d, listing[0])), listing[1..])
  {
  }

  ghost predicate InOrder(d: Disk, found: seq<Entry>) {
    && (forall i :: 0 <= i < |found| ==> Pending(d, found[i].id))
    && (forall i, j :: 0 <= i < j < |found| ==>
          IntentOf(d, found[i].id).revision <= IntentOf(d, found[j].id).revision)
  }

  function Inserted(found: seq<Entry>, i: nat, e: Entry): (r: seq<Entry>)
    requires i <= |found|
    ensures |r| == |found| + 1 && multiset(r) == multiset(found) + multiset{e}
    ensures forall k :: 0 <= k < |r| ==> r[k] == if k < i then found[k] else if k == i then e else found[k - 1]
  {
    assert found == found[..i] + found[i..];
    found[..i] + [e] + found[i..]
  }

  lemma InsertedInOrder(d: Disk, found: seq<Entry>, i: nat, e: Entry)
    requires InOrder(d, found) && Pending(d, e.id) && i <= |found|
    requires i > 0 ==> IntentOf(d, found[i - 1].id).revision <= IntentOf(d, e.id).revision
    requires forall k :: i <= k < |found| ==> IntentOf(d, e.id).revision <= IntentOf(d, found[k].id).revision
    ensures InOrder(d, Inserted(found, i, e))
  {
    var r := Inserted(found, i, e);
    assert forall a :: 0 <= a < |r| ==> Pending(d, r[a].id);
    forall a, b | 0 <= a < b < |r|
      ensures IntentOf(d, r[a].id).revision <= IntentOf(d, r[b].id).revision
    {
      var x, y := if a < i then a else a - 1, if b < i then b else b - 1;
      if a == i {
        assert r[b] == found[y];
      } else if b == i {
        assert r[a] == found[x] && x <= i - 1;
      } else {
        assert r[a] == found[x] && r[b] == found[y] && x < y;
      }
    }
  }

  /** The stable sort's step: an entry placed after every one of no higher revision. */
  method InsertByRevision(fs: FileWriter, found: seq<Entry>, e: Entry) returns (r: seq<Entry>)
    requires InOrder(fs.State(), found) && Pending(fs.State(), e.id)
    ensures InOrder(fs.State(), r) && multiset(r) == multiset(found) + multiset{e}
  {
    var i := |found|;
    while i > 0 && fs.dirs[found[i - 1].id].intent.value.revision > fs.dirs[e.id].intent.value.revision
      invariant 0 <= i <= |found|
      invariant forall k :: 0 <= k < |found| ==> Pending(fs.State(), found[k].id)
      invariant forall k :: i <= k < |found| ==>
                  IntentOf(fs.State(), e.id).revision < IntentOf(fs.State(), found[k].id).revision
    {
      i := i - 1;
    }
    r := Inserted(found, i, e);
    InsertedInOrder(fs.State(), found, i, e);
  }

  method SortByRevision(fs: FileWriter, found: seq<Entry>) returns (sorted: seq<Entry>)
    requires forall e :: e in found ==> Pending(fs.State(), e.id)
    ensures InOrder(fs.State(), sorted) && multiset(sorted) == multiset(found)
  {
    sorted := [];
    for k := 0 to |found|
      invariant InOrder(fs.State(), sorted)
      invariant multiset(sorted) == multiset(found[..k])
    {
      sorted := InsertByRevision(fs, sorted, found[k]);
      assert found[..k + 1] == found[..k] + [found[k]];
    }
    assert found[..|found|] == found;
  }

  /** One turn of `apply`'s second loop is `ApplyOne`, and leaves the later payloads where they are. */
  lemma ApplyTakes(d: Disk, e: Disk, id: TxId, ts: seq<Target>, i: nat)
    requires i < |ts| && Distinct(ts)
    requires e == Run(d, ApplyOne(d.files, id, i, ts[i]))
    requires forall k :: 0 <= k < i ==> Landed(d.files, ts[k])
    requires forall k :: i <= k < |ts| ==> Available(d.files, DirOf(d, id), k, ts[k])
    ensures ApplyScript(d, id, ts, i) == ApplyOne(d.files, id, i, ts[i]) + ApplyScript(e, id, ts, i + 1)
    ensures forall k :: 0 <= k < i + 1 ==> Landed(e.files, ts[k])
    ensures forall k :: i + 1 <= k < |ts| ==> Available(e.files, DirOf(e, id), k, ts[k])
  {
    var one := ApplyOne(d.files, id, i, ts[i]);
    if one != [] {
      OneStep(d, one[0]);
    }
    assert Available(d.files, DirOf(d, id), i, ts[i]);
  }
}
