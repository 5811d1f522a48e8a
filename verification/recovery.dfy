/** The scripts behind publication and recovery, and what a crash anywhere in them leaves. */
module Recovery {
  import opened Wrappers
  import opened Documents
  import opened Storage

  // ---- scripts ----

  function ApplyOne(files: Files, id: TxId, i: nat, t: Target): seq<Step> {
    if t.hash == None then (if t.path in files then [Remove(id, i, t.path)] else [])
    else if EtagAt(files, t.path) == t.hash then []
    else [Install(id, i, t.path)]
  }

  /** The second loop of `apply`: each target read, then put in place unless it already is. */
  function ApplyScript(d: Disk, id: TxId, ts: seq<Target>, i: nat): seq<Step>
    decreases |ts| - i
  {
    if i >= |ts| then []
    else
      var one := ApplyOne(d.files, id, i, ts[i]);
      one + ApplyScript(Run(d, one), id, ts, i + 1)
  }

  function EventFor(id: TxId, it: Intent, t: Target): Event {
    Event(t.path, it.revision, t.hash, t.who, id)
  }

  function Events(id: TxId, it: Intent, i: nat): seq<Event>
    decreases |it.targets| - i
  {
    if i >= |it.targets| then [] else [EventFor(id, it, it.targets[i])] + Events(id, it, i + 1)
  }

  function EmitScript(events: seq<Event>): seq<Step> {
    if events == [] then [] else [Emit(events[0])] + EmitScript(events[1..])
  }

  /** `rm -r` of a journal directory: its entries in any order, then the directory. */
  function SweepScript(id: TxId, order: seq<Item>): seq<Step> {
    if order == [] then [RemoveDir(id)] else [Unlink(id, order[0])] + SweepScript(id, order[1..])
  }

  function RevisionScript(d: Disk, id: TxId, it: Intent, temp: Temp): seq<Step> {
    if d.revision != it.revision then [OpenTemp(id, temp), PutRevision(id, it.revision, temp)] else []
  }

  /** `finish`: apply, revision, events, then the journal directory goes. */
  function FinishScript(d: Disk, id: TxId, it: Intent, how: Manner): seq<Step> {
    ApplyScript(d, id, it.targets, 0) + RevisionScript(d, id, it, how.temp) + EmitScript(Events(id, it, 0))
    + SweepScript(id, how.order)
  }

  /** One entry of the transactions directory, with how it would be finished or taken apart. */
  datatype Entry = Entry(id: TxId, how: Manner)

  /** `pending` over a directory listing: directories that hold no intent are swept. */
  function OrphanScript(d: Disk, listing: seq<Entry>): seq<Step>
    decreases |listing|
  {
    if listing == [] then []
    else
      var e := listing[0];
      var one := if e.id in d.dirs && !Pending(d, e.id) then SweepScript(e.id, e.how.order) else [];
      one + OrphanScript(Run(d, one), listing[1..])
  }

  /** Then each recorded intent is finished. */
  function ReplayScript(d: Disk, listing: seq<Entry>): seq<Step>
    decreases |listing|
  {
    if listing == [] then []
    else
      var e := listing[0];
      var one := if Pending(d, e.id) then FinishScript(d, e.id, IntentOf(d, e.id), e.how) else [];
      one + ReplayScript(Run(d, one), listing[1..])
  }

  function RecoverScript(d: Disk, listing: seq<Entry>): seq<Step> {
    var sweep := OrphanScript(d, listing);
    sweep + ReplayScript(Run(d, sweep), listing)
  }

  /** The listing names every journal directory of `d`. */
  ghost predicate Lists(listing: seq<Entry>, d: Disk) {
    forall id :: id in d.dirs ==> exists k :: 0 <= k < |listing| && listing[k].id == id
  }

  // ---- what the scripts do ----

  lemma OneStep(d: Disk, s: Step)
    ensures Run(d, [s]) == Exec(d, s)
    ensures StepOk(d, s) ==> Safe(d, [s])
  {
    assert [s][1..] == [];
  }

  lemma {:induction false} ApplyRuns(d: Disk, id: TxId, i: nat, v: Version)
    requires Recoverable(d) && Denotes(d, v) && Pending(d, id) && i <= |IntentOf(d, id).targets|
    requires forall k :: 0 <= k < i ==> Landed(d.files, IntentOf(d, id).targets[k])
    ensures
      var ts := IntentOf(d, id).targets;
      var steps := ApplyScript(d, id, ts, i);
      var d' := Run(d, steps);
      && Safe(d, steps) && Recoverable(d') && Denotes(d', v)
      && d'.revision == d.revision && d'.log == d.log && d'.strays == d.strays && d'.dirs - {id} == d.dirs - {id}
      && Pending(d', id) && IntentOf(d', id) == IntentOf(d, id) && AllLanded(d'.files, ts)
    decreases |IntentOf(d, id).targets| - i
  {
    var ts := IntentOf(d, id).targets;
    if i < |ts| {
      var one := ApplyOne(d.files, id, i, ts[i]);
      var m := Run(d, one);
      ApplyOneRuns(d, id, i, v);
      ApplyRuns(m, id, i + 1, v);
      var rest := ApplyScript(m, id, ts, i + 1);
      SafeConcat(d, one, rest);
      RunConcat(d, one, rest);
    }
  }

  lemma ApplyOneRuns(d: Disk, id: TxId, i: nat, v: Version)
    requires Recoverable(d) && Denotes(d, v) && Pending(d, id) && i < |IntentOf(d, id).targets|
    requires forall k :: 0 <= k < i ==> Landed(d.files, IntentOf(d, id).targets[k])
    ensures
      var ts := IntentOf(d, id).targets;
      var one := ApplyOne(d.files, id, i, ts[i]);
      var m := Run(d, one);
      && Safe(d, one) && Recoverable(m) && Denotes(m, v)
      && m.revision == d.revision && m.log == d.log && m.strays == d.strays && m.dirs - {id} == d.dirs - {id}
      && Pending(m, id) && IntentOf(m, id) == IntentOf(d, id)
      && forall k :: 0 <= k < i + 1 ==> Landed(m.files, ts[k])
  {
    var ts := IntentOf(d, id).targets;
    assert Available(d.files, d.dirs[id], i, ts[i]);
    var one := ApplyOne(d.files, id, i, ts[i]);
    if one != [] {
      OneStep(d, one[0]);
      StepKeeps(d, one[0], v);
    }
  }

  lemma {:induction false} EmitRuns(d: Disk, events: seq<Event>)
    ensures Safe(d, EmitScript(events))
    ensures Run(d, EmitScript(events)) == d.(log := d.log + events)
    decreases |events|
  {
    if events == [] {
      assert d.log + events == d.log;
    } else {
      var steps := EmitScript(events);
      var d' := d.(log := d.log + [events[0]]);
      EmitRuns(d', events[1..]);
      assert steps[0] == Emit(events[0]) && steps[1..] == EmitScript(events[1..]);
      assert Exec(d, steps[0]) == d';
      assert d'.log + events[1..] == d.log + events;
    }
  }

  lemma {:induction false} SweepRuns(d: Disk, id: TxId, order: seq<Item>)
    ensures (Pending(d, id) ==> Settled(d, id)) ==> Safe(d, SweepScript(id, order))
    ensures Run(d, SweepScript(id, order)) == d.(dirs := d.dirs - {id})
    decreases |order|
  {
    var steps := SweepScript(id, order);
    var d' := Exec(d, steps[0]);
    if order == [] {
      assert steps[1..] == [];
    } else {
      SweepRuns(d', id, order[1..]);
      assert steps[1..] == SweepScript(id, order[1..]);
      assert d'.dirs - {id} == d.dirs - {id};
    }
  }

  lemma RevisionRuns(d: Disk, id: TxId, it: Intent, temp: Temp)
    requires Pending(d, id) && IntentOf(d, id) == it && AllLanded(d.files, it.targets)
    ensures Safe(d, RevisionScript(d, id, it, temp))
    ensures Run(d, RevisionScript(d, id, it, temp))
            == if d.revision != it.revision then d.(revision := it.revision, strays := d.strays - {temp.Path()}) else d
  {
    if d.revision != it.revision {
      var open, rename := OpenTemp(id, temp), PutRevision(id, it.revision, temp);
      OneStep(d, open);
      OneStep(Exec(d, open), rename);
      SafeConcat(d, [open], [rename]);
      RunConcat(d, [open], [rename]);
      assert [open] + [rename] == [open, rename];
      assert d.strays[temp.Path() := temp.held] - {temp.Path()} == d.strays - {temp.Path()};
    }
  }

  /** A recoverable transaction is finished exactly once, whatever was already done of it. */
  lemma FinishRuns(d: Disk, id: TxId, how: Manner)
    requires Recoverable(d) && Pending(d, id)
    ensures
      var it := IntentOf(d, id);
      var steps := FinishScript(d, id, it, how);
      && Safe(d, steps)
      && Run(d, steps) == Disk(Overlay(d.files, it.targets), it.revision, d.dirs - {id}, d.log + Events(id, it, 0),
                               if d.revision != it.revision then d.strays - {how.temp.Path()} else d.strays)
  {
    var it := IntentOf(d, id);
    var v := Version(it.revision, Overlay(d.files, it.targets));
    var apply, revision := ApplyScript(d, id, it.targets, 0), RevisionScript(d, id, it, how.temp);
    var emit, sweep := EmitScript(Events(id, it, 0)), SweepScript(id, how.order);
    assert forall x :: Pending(d, x) ==> x == id;
    ApplyRuns(d, id, 0, v);
    var d1 := Run(d, apply);
    OverlayOfLanded(d1.files, it.targets);
    assert v == Version(it.revision, Overlay(d1.files, it.targets));
    RevisionRuns(d1, id, it, how.temp);
    var d2 := Run(d1, revision);
    EmitRuns(d2, Events(id, it, 0));
    var d3 := Run(d2, emit);
    SweepRuns(d3, id, how.order);
    SafeConcat(d, apply, revision);
    RunConcat(d, apply, revision);
    SafeConcat(d, apply + revision, emit);
    RunConcat(d, apply + revision, emit);
    SafeConcat(d, apply + revision + emit, sweep);
    RunConcat(d, apply + revision + emit, sweep);
  }

  lemma RunKeeps(d: Disk, steps: seq<Step>, v: Version)
    requires Recoverable(d) && Denotes(d, v) && Safe(d, steps)
    ensures Recoverable(Run(d, steps)) && Denotes(Run(d, steps), v)
  {
    SafePrefix(d, steps, |steps|, v);
    assert steps[..|steps|] == steps;
  }

  lemma {:induction false} OrphansRun(d: Disk, listing: seq<Entry>, v: Version)
    requires Recoverable(d) && Denotes(d, v)
    ensures
      var steps := OrphanScript(d, listing);
      var d' := Run(d, steps);
      && Safe(d, steps) && d'.log == d.log
      && (forall id :: Pending(d, id) <==> Pending(d', id))
      && (forall id :: id in d'.dirs ==>
            id in d.dirs && d'.dirs[id] == d.dirs[id]
            && (Pending(d, id) || forall k :: 0 <= k < |listing| ==> listing[k].id != id))
    decreases |listing|
  {
    if listing != [] {
      var e := listing[0];
      var one := if e.id in d.dirs && !Pending(d, e.id) then SweepScript(e.id, e.how.order) else [];
      var m := Run(d, one);
      if one != [] {
        SweepRuns(d, e.id, e.how.order);
      }
      RunKeeps(d, one, v);
      OrphansRun(m, listing[1..], v);
      SafeConcat(d, one, OrphanScript(m, listing[1..]));
      RunConcat(d, one, OrphanScript(m, listing[1..]));
      assert forall id :: Pending(m, id) <==> Pending(d, id);
      var d' := Run(d, OrphanScript(d, listing));
      forall id | id in d'.dirs && !Pending(d, id)
        ensures forall k :: 0 <= k < |listing| ==> listing[k].id != id
      {
        assert id in m.dirs && id != e.id;
        forall k | 0 <= k < |listing| ensures listing[k].id != id {
          assert k > 0 ==> listing[k] == listing[1..][k - 1];
        }
      }
    }
  }

  lemma {:induction false} NothingToReplay(d: Disk, listing: seq<Entry>)
    requires Quiet(d)
    ensures ReplayScript(d, listing) == []
    decreases |listing|
  {
    if listing != [] {
      NothingToReplay(d, listing[1..]);
    }
  }

  /** The events a finished transaction owes `onWrite`. */
  ghost predicate Attributed(log: seq<Event>, id: TxId, it: Intent) {
    forall t :: t in it.targets ==> EventFor(id, it, t) in log
  }

  lemma {:induction false} EventsCover(id: TxId, it: Intent, i: nat)
    ensures forall k :: i <= k < |it.targets| ==> EventFor(id, it, it.targets[k]) in Events(id, it, i)
    decreases |it.targets| - i
  {
    if i < |it.targets| {
      EventsCover(id, it, i + 1);
    }
  }

  lemma {:induction false} ReplayRuns(d: Disk, listing: seq<Entry>, v: Version)
    requires Recoverable(d) && Denotes(d, v)
    requires forall id :: Pending(d, id) ==> exists k :: 0 <= k < |listing| && listing[k].id == id
    ensures
      var steps := ReplayScript(d, listing);
      var d' := Run(d, steps);
      && Safe(d, steps) && Quiet(d') && d.log <= d'.log
      && (forall id :: id in d'.dirs ==> id in d.dirs && !Pending(d, id))
      && (forall id :: Pending(d, id) ==> Attributed(d'.log, id, IntentOf(d, id)))
    decreases |listing|
  {
    if listing != [] {
      var e := listing[0];
      if Pending(d, e.id) {
        var it := IntentOf(d, e.id);
        var one := FinishScript(d, e.id, it, e.how);
        FinishRuns(d, e.id, e.how);
        assert forall x :: Pending(Run(d, one), x) ==> Pending(d, x) && x != e.id;
        NothingToReplay(Run(d, one), listing[1..]);
        assert ReplayScript(d, listing) == one;
        EventsCover(e.id, it, 0);
      } else {
        forall id | Pending(d, id)
          ensures exists k :: 0 <= k < |listing[1..]| && listing[1..][k].id == id
        {
          var k :| 0 <= k < |listing| && listing[k].id == id;
          assert listing[1..][k - 1].id == id;
        }
        ReplayRuns(d, listing[1..], v);
        assert ReplayScript(d, listing) == ReplayScript(d, listing[1..]);
      }
    }
  }

  /**
   * A recovery that runs to its end leaves exactly the database the disk stood for, an empty
   * journal, and every event of the transaction it finished.
   */
  lemma RecoverRuns(d: Disk, listing: seq<Entry>, v: Version)
    requires Recoverable(d) && Denotes(d, v) && Lists(listing, d)
    ensures
      var steps := RecoverScript(d, listing);
      var d' := Run(d, steps);
      && Safe(d, steps)
      && d' == Disk(v.files, v.revision, map[], d'.log, d'.strays) && d.log <= d'.log
      && (forall id :: Pending(d, id) ==> Attributed(d'.log, id, IntentOf(d, id)))
  {
    var sweep := OrphanScript(d, listing);
    var m := Run(d, sweep);
    OrphansRun(d, listing, v);
    RunKeeps(d, sweep, v);
    forall id | Pending(m, id)
      ensures Pending(d, id) && IntentOf(m, id) == IntentOf(d, id)
      ensures exists k :: 0 <= k < |listing| && listing[k].id == id
    {
      assert id in m.dirs;
    }
    var replay := ReplayScript(m, listing);
    ReplayRuns(m, listing, v);
    RunKeeps(m, replay, v);
    SafeConcat(d, sweep, replay);
    RunConcat(d, sweep, replay);
    var d' := Run(m, replay);
    forall id | id in d.dirs ensures id !in d'.dirs {
      var k :| 0 <= k < |listing| && listing[k].id == id;
      assert Pending(m, id) <==> Pending(d, id);
    }
    assert d'.dirs == map[];
    forall id | Pending(d, id)
      ensures Attributed(d'.log, id, IntentOf(d, id))
    {
      assert Pending(m, id);
    }
  }

  // ---- the temporaries a script opens ----

  /** Steps that neither open nor rename a temporary. */
  predicate Plain(steps: seq<Step>) {
    forall k :: 0 <= k < |steps| ==> !steps[k].OpenTemp? && !steps[k].PutRevision?
  }

  lemma {:induction false} PlainWrites(d: Disk, steps: seq<Step>)
    requires Plain(steps)
    ensures Writes(d, steps, []) && Run(d, steps).strays == d.strays && Run(d, steps).revision == d.revision
    decreases |steps|
  {
    if steps != [] {
      PlainWrites(Exec(d, steps[0]), steps[1..]);
    }
  }

  lemma {:induction false} ApplyIsPlain(d: Disk, id: TxId, ts: seq<Target>, i: nat)
    ensures Plain(ApplyScript(d, id, ts, i))
    decreases |ts| - i
  {
    if i < |ts| {
      ApplyIsPlain(Run(d, ApplyOne(d.files, id, i, ts[i])), id, ts, i + 1);
    }
  }

  lemma {:induction false} EmitIsPlain(events: seq<Event>)
    ensures Plain(EmitScript(events))
  {
    if events != [] {
      EmitIsPlain(events[1..]);
    }
  }

  lemma {:induction false} SweepIsPlain(id: TxId, order: seq<Item>)
    ensures Plain(SweepScript(id, order))
  {
    if order != [] {
      SweepIsPlain(id, order[1..]);
    }
  }

  lemma {:induction false} WritesConcat(d: Disk, a: seq<Step>, b: seq<Step>, open: seq<Temp>)
    requires Writes(d, a, open) && Writes(Run(d, a), b, [])
    ensures Writes(d, a + b, open)
    decreases |a|
  {
    if a == [] {
      assert a + b == b;
    } else {
      assert (a + b)[0] == a[0] && (a + b)[1..] == a[1..] + b;
      var next := match a[0] case OpenTemp(_, temp) => [temp] case _ => [];
      WritesConcat(Exec(d, a[0]), a[1..], b, next);
    }
  }

  lemma RevisionWrites(d: Disk, id: TxId, it: Intent, temp: Temp)
    requires temp.Path() !in d.strays
    ensures Writes(d, RevisionScript(d, id, it, temp), [])
    ensures Run(d, RevisionScript(d, id, it, temp)) == d.(revision := it.revision)
  {
    if d.revision != it.revision {
      var steps := RevisionScript(d, id, it, temp);
      var open := Exec(d, steps[0]);
      assert steps[1..] == [PutRevision(id, it.revision, temp)] && steps[1..][1..] == [];
      assert Writes(Exec(open, steps[1]), [], []);
      assert Writes(open, steps[1..], [temp]);
      assert open.strays - {temp.Path()} == d.strays;
      assert Run(open, steps[1..]) == Exec(open, steps[1]);
    }
  }

  lemma TailWrites(d: Disk, id: TxId, it: Intent, how: Manner)
    requires how.temp.Path() !in d.strays
    ensures
      var steps := RevisionScript(d, id, it, how.temp) + (EmitScript(Events(id, it, 0)) + SweepScript(id, how.order));
      Writes(d, steps, []) && Run(d, steps).strays == d.strays
  {
    var revision := RevisionScript(d, id, it, how.temp);
    var rest := EmitScript(Events(id, it, 0)) + SweepScript(id, how.order);
    RevisionWrites(d, id, it, how.temp);
    EmitIsPlain(Events(id, it, 0));
    SweepIsPlain(id, how.order);
    PlainWrites(d.(revision := it.revision), rest);
    WritesConcat(d, revision, rest, []);
    RunConcat(d, revision, rest);
  }

  /** Finishing through a new temporary leaves the others as they are. */
  lemma FinishWrites(d: Disk, id: TxId, it: Intent, how: Manner)
    requires how.temp.Path() !in d.strays
    ensures Writes(d, FinishScript(d, id, it, how), []) && Run(d, FinishScript(d, id, it, how)).strays == d.strays
  {
    var apply := ApplyScript(d, id, it.targets, 0);
    ApplyIsPlain(d, id, it.targets, 0);
    PlainWrites(d, apply);
    var d1 := Run(d, apply);
    TailWrites(d1, id, it, how);
    var rest := RevisionScript(d1, id, it, how.temp) + (EmitScript(Events(id, it, 0)) + SweepScript(id, how.order));
    WritesConcat(d, apply, rest, []);
    RunConcat(d, apply, rest);
    FinishInTwo(d, d1, id, it, how);
  }

  lemma FinishInTwo(d: Disk, d1: Disk, id: TxId, it: Intent, how: Manner)
    requires d1.revision == d.revision
    ensures FinishScript(d, id, it, how)
            == ApplyScript(d, id, it.targets, 0)
               + (RevisionScript(d1, id, it, how.temp) + (EmitScript(Events(id, it, 0)) + SweepScript(id, how.order)))
  {
    var a, b, c, e := ApplyScript(d, id, it.targets, 0), RevisionScript(d, id, it, how.temp),
                      EmitScript(Events(id, it, 0)), SweepScript(id, how.order);
    assert a + b + c + e == a + (b + (c + e));
  }

  ghost predicate FreshTemps(listing: seq<Entry>, d: Disk) {
    forall e :: e in listing ==> e.how.temp.Path() !in d.strays
  }

  lemma {:induction false} OrphansArePlain(d: Disk, listing: seq<Entry>)
    ensures Plain(OrphanScript(d, listing))
    decreases |listing|
  {
    if listing != [] {
      var e := listing[0];
      var one := if e.id in d.dirs && !Pending(d, e.id) then SweepScript(e.id, e.how.order) else [];
      SweepIsPlain(e.id, e.how.order);
      OrphansArePlain(Run(d, one), listing[1..]);
    }
  }

  lemma {:induction false} ReplayWrites(d: Disk, listing: seq<Entry>)
    requires FreshTemps(listing, d)
    ensures Writes(d, ReplayScript(d, listing), []) && Run(d, ReplayScript(d, listing)).strays == d.strays
    decreases |listing|
  {
    if listing != [] {
      var e := listing[0];
      var one := if Pending(d, e.id) then FinishScript(d, e.id, IntentOf(d, e.id), e.how) else [];
      if Pending(d, e.id) {
        FinishWrites(d, e.id, IntentOf(d, e.id), e.how);
      }
      var m := Run(d, one);
      assert FreshTemps(listing[1..], m);
      ReplayWrites(m, listing[1..]);
      WritesConcat(d, one, ReplayScript(m, listing[1..]), []);
      RunConcat(d, one, ReplayScript(m, listing[1..]));
    }
  }

  /** A recovery that runs to its end through new temporaries leaves the old ones as they are. */
  lemma RecoverWrites(d: Disk, listing: seq<Entry>)
    requires FreshTemps(listing, d)
    ensures Writes(d, RecoverScript(d, listing), []) && Run(d, RecoverScript(d, listing)).strays == d.strays
  {
    var sweep := OrphanScript(d, listing);
    OrphansArePlain(d, listing);
    PlainWrites(d, sweep);
    ReplayWrites(Run(d, sweep), listing);
    WritesConcat(d, sweep, ReplayScript(Run(d, sweep), listing), []);
    RunConcat(d, sweep, ReplayScript(Run(d, sweep), listing));
  }

  /** Cut anywhere, a script has left behind the temporary it was about to rename, if it was. */
  lemma {:induction false} PrefixStrays(d: Disk, steps: seq<Step>, open: seq<Temp>, base: Files, k: nat)
    requires Writes(d, steps, open) && k <= |steps|
    requires d.strays == base + LeftBy(open) && forall t :: t in open ==> t.Path() !in base
    ensures Run(d, steps[..k]).strays == base + LeftBy(OpenOf(steps[k..]))
    ensures forall t :: t in OpenOf(steps[k..]) ==> t.Path() !in base
    decreases |steps|
  {
    if k == 0 {
      assert steps[..0] == [] && steps[0..] == steps;
      assert OpenOf(steps) == open;
    } else {
      var step := steps[0];
      var next := match step case OpenTemp(_, temp) => [temp] case _ => [];
      OneLeft(step, next);
      assert Exec(d, step).strays == base + LeftBy(next);
      assert steps[..k][1..] == steps[1..][..k - 1] && steps[1..][k - 1..] == steps[k..];
      PrefixStrays(Exec(d, step), steps[1..], next, base, k - 1);
    }
  }

  lemma OneLeft(step: Step, next: seq<Temp>)
    requires next == match step case OpenTemp(_, temp) => [temp] case _ => []
    ensures LeftBy([]) == map[]
    ensures step.OpenTemp? ==> LeftBy(next) == map[step.temp.Path() := step.temp.held]
    ensures step.PutRevision? ==> LeftBy([step.temp]) == map[step.temp.Path() := step.temp.held]
  {
    if step.OpenTemp? || step.PutRevision? {
      OnlyOneLeft(step.temp);
    }
  }

  // ---- crash atomicity ----

  /** A recovery cut short by a crash after `cut` of its steps. */
  datatype Attempt = Attempt(listing: seq<Entry>, cut: nat)

  /** The disk after a run of recoveries, each of them killed part of the way. */
  function AfterCrashes(d: Disk, attempts: seq<Attempt>): Disk
    decreases |attempts|
  {
    if attempts == [] then d
    else
      var steps := RecoverScript(d, attempts[0].listing);
      var cut := if attempts[0].cut <= |steps| then attempts[0].cut else |steps|;
      AfterCrashes(Run(d, steps[..cut]), attempts[1..])
  }

  /** Every attempt reads the transactions directory as it then stands. */
  ghost predicate Faithful(d: Disk, attempts: seq<Attempt>)
    decreases |attempts|
  {
    attempts == [] || (
      && Lists(attempts[0].listing, d) && FreshTemps(attempts[0].listing, d)
      && Faithful(AfterCrashes(d, attempts[..1]), attempts[1..]))
  }

  lemma {:induction false} CrashesKeep(d: Disk, attempts: seq<Attempt>, v: Version)
    requires Recoverable(d) && Denotes(d, v) && Faithful(d, attempts)
    ensures Recoverable(AfterCrashes(d, attempts)) && Denotes(AfterCrashes(d, attempts), v)
    decreases |attempts|
  {
    if attempts != [] {
      var steps := RecoverScript(d, attempts[0].listing);
      var cut := if attempts[0].cut <= |steps| then attempts[0].cut else |steps|;
      RecoverRuns(d, attempts[0].listing, v);
      SafePrefix(d, steps, cut, v);
      assert attempts[..1][0] == attempts[0];
      assert AfterCrashes(d, attempts[..1]) == Run(d, steps[..cut]);
      CrashesKeep(Run(d, steps[..cut]), attempts[1..], v);
    }
  }

  /** The temporaries the killed recoveries left, each by a kill between its creation and its renaming. */
  function TornBy(d: Disk, attempts: seq<Attempt>): seq<Temp>
    decreases |attempts|
  {
    if attempts == [] then []
    else
      var steps := RecoverScript(d, attempts[0].listing);
      var cut := if attempts[0].cut <= |steps| then attempts[0].cut else |steps|;
      OpenOf(steps[cut..]) + TornBy(Run(d, steps[..cut]), attempts[1..])
  }

  lemma {:induction false} LeftByConcat(a: seq<Temp>, b: seq<Temp>)
    ensures LeftBy(a + b) == LeftBy(a) + LeftBy(b)
  {
    if b == [] {
      assert a + b == a;
    } else {
      assert (a + b)[..|a + b| - 1] == a + b[..|b| - 1];
      LeftByConcat(a, b[..|b| - 1]);
    }
  }

  lemma BesideTwice(base: Files, a: seq<Temp>, b: seq<Temp>)
    ensures base + LeftBy(a) + LeftBy(b) == base + LeftBy(a + b)
  {
    LeftByConcat(a, b);
    assert base + LeftBy(a) + LeftBy(b) == base + (LeftBy(a) + LeftBy(b));
  }

  lemma OneCrashLeaves(d: Disk, listing: seq<Entry>, cut: nat)
    requires FreshTemps(listing, d) && cut <= |RecoverScript(d, listing)|
    ensures Run(d, RecoverScript(d, listing)[..cut]).strays == d.strays + LeftBy(OpenOf(RecoverScript(d, listing)[cut..]))
    ensures |Run(d, RecoverScript(d, listing)[..cut]).strays| == |d.strays| + |OpenOf(RecoverScript(d, listing)[cut..])|
  {
    RecoverWrites(d, listing);
    PrefixStrays(d, RecoverScript(d, listing), [], d.strays, cut);
    MoreFiles(d.strays, OpenOf(RecoverScript(d, listing)[cut..]));
  }

  lemma NoMoreFiles(base: Files)
    ensures base + LeftBy([]) == base
  {
    assert LeftBy([]) == map[];
  }

  lemma OneMoreFile(base: Files, temp: Temp)
    requires temp.Path() !in base
    ensures |base + LeftBy([temp])| == |base| + 1
  {
    OnlyOneLeft(temp);
    OneMoreKey(base, temp.Path(), temp.held);
  }

  lemma MoreFiles(base: Files, open: seq<Temp>)
    requires |open| <= 1 && forall t :: t in open ==> t.Path() !in base
    ensures |base + LeftBy(open)| == |base| + |open|
  {
    if open == [] {
      NoMoreFiles(base);
    } else {
      assert open == [open[0]] && open[0] in open;
      OneMoreFile(base, open[0]);
    }
  }

  lemma OnlyOneLeft(temp: Temp)
    ensures LeftBy([temp]) == map[temp.Path() := temp.held]
  {
    assert [temp][..0] == [];
  }

  lemma OneMoreKey<K, V>(m: map<K, V>, k: K, v: V)
    requires k !in m
    ensures |m + map[k := v]| == |m| + 1
  {
    assert m + map[k := v] == m[k := v];
    assert m[k := v].Keys == m.Keys + {k};
  }

  lemma {:induction false} CrashesLeave(d: Disk, attempts: seq<Attempt>)
    requires Faithful(d, attempts)
    ensures AfterCrashes(d, attempts).strays == d.strays + LeftBy(TornBy(d, attempts))
    ensures |AfterCrashes(d, attempts).strays| == |d.strays| + |TornBy(d, attempts)|
    decreases |attempts|
  {
    if attempts != [] {
      var steps := RecoverScript(d, attempts[0].listing);
      var cut := if attempts[0].cut <= |steps| then attempts[0].cut else |steps|;
      var e := Run(d, steps[..cut]);
      OneCrashLeaves(d, attempts[0].listing, cut);
      FirstAttempt(d, attempts);
      CrashesLeave(e, attempts[1..]);
      BesideTwice(d.strays, OpenOf(steps[cut..]), TornBy(e, attempts[1..]));
    }
  }

  lemma FirstAttempt(d: Disk, attempts: seq<Attempt>)
    requires attempts != []
    ensures
      var steps := RecoverScript(d, attempts[0].listing);
      var cut := if attempts[0].cut <= |steps| then attempts[0].cut else |steps|;
      AfterCrashes(d, attempts[..1]) == Run(d, steps[..cut])
  {
    assert attempts[..1][0] == attempts[0] && attempts[..1][1..] == [];
  }

  /** Recording the intent, then `finish`. */
  function PublishScript(d: Disk, id: TxId, it: Intent, how: Manner): seq<Step> {
    [PutIntent(id, it)] + FinishScript(Exec(d, PutIntent(id, it)), id, it, how)
  }

  /** A transaction that is prepared and may be published. */
  ghost predicate Publishable(d: Disk, id: TxId, it: Intent) {
    && Quiet(d) && id in d.dirs && Distinct(it.targets) && it.revision == d.revision + 1
    && forall i :: 0 <= i < |it.targets| ==> Available(d.files, d.dirs[id], i, it.targets[i])
  }

  lemma CutLeaves(d: Disk, id: TxId, it: Intent, how: Manner, cut: nat)
    requires how.temp.Path() !in d.strays && cut <= |PublishScript(d, id, it, how)|
    ensures Run(d, PublishScript(d, id, it, how)[..cut]).strays
            == d.strays + LeftBy(OpenOf(PublishScript(d, id, it, how)[cut..]))
    ensures |Run(d, PublishScript(d, id, it, how)[..cut]).strays|
            == |d.strays| + |OpenOf(PublishScript(d, id, it, how)[cut..])|
  {
    var publish := PublishScript(d, id, it, how);
    var d1 := Exec(d, PutIntent(id, it));
    FinishWrites(d1, id, it, how);
    assert publish[1..] == FinishScript(d1, id, it, how);
    assert Writes(d, publish, []);
    PrefixStrays(d, publish, [], d.strays, cut);
    MoreFiles(d.strays, OpenOf(publish[cut..]));
  }

  /**
   * Crash atomicity. A prepared transaction is published (intent first, then `finish`) and killed
   * after `cut` steps; recovery is killed any number of times; then one recovery completes. The
   * database is the old one if the intent was never recorded and otherwise the new one with its
   * revision one higher; the journal is empty and a further recovery has nothing to do. Beside the
   * database lie the temporaries that were there and one for each kill, of the publication or of a
   * recovery, that fell between creating and renaming the one of `.revision`.
   */
  lemma CrashAtomicity(d: Disk, id: TxId, it: Intent, how: Manner, cut: nat,
                       attempts: seq<Attempt>, listing: seq<Entry>)
    requires Publishable(d, id, it) && how.temp.Path() !in d.strays && cut <= |PublishScript(d, id, it, how)|
    requires
      var killed := Run(d, PublishScript(d, id, it, how)[..cut]);
      && Faithful(killed, attempts) && Lists(listing, AfterCrashes(killed, attempts))
      && FreshTemps(listing, AfterCrashes(killed, attempts))
    ensures
      var publish := PublishScript(d, id, it, how);
      var broken := AfterCrashes(Run(d, publish[..cut]), attempts);
      var final := Run(broken, RecoverScript(broken, listing));
      && Version(final.revision, final.files)
         == (if cut == 0 then Version(d.revision, d.files)
             else Version(d.revision + 1, Overlay(d.files, it.targets)))
      && final.strays == d.strays + LeftBy(OpenOf(publish[cut..]) + TornBy(Run(d, publish[..cut]), attempts))
      && |final.strays| == |d.strays| + |OpenOf(publish[cut..])| + |TornBy(Run(d, publish[..cut]), attempts)|
      && final.dirs == map[]
      && forall again :: RecoverScript(final, again) == []
  {
    var publish := PublishScript(d, id, it, how);
    var killed := Run(d, publish[..cut]);
    var v := if cut == 0 then Version(d.revision, d.files)
             else Version(d.revision + 1, Overlay(d.files, it.targets));
    KilledHolds(d, id, it, how, cut, v);
    CrashesKeep(killed, attempts, v);
    CutLeaves(d, id, it, how, cut);
    CrashesLeave(killed, attempts);
    BesideTwice(d.strays, OpenOf(publish[cut..]), TornBy(killed, attempts));
    LastRecovery(AfterCrashes(killed, attempts), listing, v);
  }

  lemma KilledHolds(d: Disk, id: TxId, it: Intent, how: Manner, cut: nat, v: Version)
    requires Publishable(d, id, it) && cut <= |PublishScript(d, id, it, how)|
    requires v == if cut == 0 then Version(d.revision, d.files) else Version(d.revision + 1, Overlay(d.files, it.targets))
    ensures
      var killed := Run(d, PublishScript(d, id, it, how)[..cut]);
      Recoverable(killed) && Denotes(killed, v)
  {
    var d1 := Exec(d, PutIntent(id, it));
    var finish := FinishScript(d1, id, it, how);
    PutIntentCommits(d, id, it);
    FinishRuns(d1, id, how);
    if cut > 0 {
      assert PublishScript(d, id, it, how)[..cut][1..] == finish[..cut - 1];
      SafePrefix(d1, finish, cut - 1, v);
    }
  }

  lemma LastRecovery(d: Disk, listing: seq<Entry>, v: Version)
    requires Recoverable(d) && Denotes(d, v) && Lists(listing, d) && FreshTemps(listing, d)
    ensures
      var final := Run(d, RecoverScript(d, listing));
      && Version(final.revision, final.files) == v && final.strays == d.strays && final.dirs == map[]
      && forall again :: RecoverScript(final, again) == []
  {
    RecoverRuns(d, listing, v);
    RecoverWrites(d, listing);
    var final := Run(d, RecoverScript(d, listing));
    forall again ensures RecoverScript(final, again) == [] {
      NothingToRecover(final, again);
    }
  }

  /**
   * Crash atomicity of the tree a reader sees: it is exactly the old or the new database if and only if
   * no temporary lay beside it before and no kill fell between creating and renaming one.
   */
  lemma CrashTreeIff(d: Disk, id: TxId, it: Intent, how: Manner, cut: nat, attempts: seq<Attempt>, listing: seq<Entry>)
    requires Publishable(d, id, it) && how.temp.Path() !in d.strays && cut <= |PublishScript(d, id, it, how)|
    requires
      var killed := Run(d, PublishScript(d, id, it, how)[..cut]);
      && Faithful(killed, attempts) && Lists(listing, AfterCrashes(killed, attempts))
      && FreshTemps(listing, AfterCrashes(killed, attempts))
    requires OnlyDots(d.strays) && NoDots(d.files) && forall t :: t in it.targets ==> !DotFile(t.path)
    ensures
      var publish := PublishScript(d, id, it, how);
      var broken := AfterCrashes(Run(d, publish[..cut]), attempts);
      var files := if cut == 0 then d.files else Overlay(d.files, it.targets);
      Visible(Run(broken, RecoverScript(broken, listing))) == files
      <==> d.strays == map[] && OpenOf(publish[cut..]) == [] && TornBy(Run(d, publish[..cut]), attempts) == []
  {
    var publish := PublishScript(d, id, it, how);
    var torn := OpenOf(publish[cut..]) + TornBy(Run(d, publish[..cut]), attempts);
    CrashAtomicity(d, id, it, how, cut, attempts, listing);
    OverlayNoDots(d.files, it.targets);
    LeftByAre(torn);
    var files := if cut == 0 then d.files else Overlay(d.files, it.targets);
    BesideSplits(files, d.strays + LeftBy(torn));
    NothingLeft(d.strays, torn);
  }

  lemma {:induction false} OverlayNoDots(files: Files, ts: seq<Target>)
    requires NoDots(files) && forall t :: t in ts ==> !DotFile(t.path)
    ensures NoDots(Overlay(files, ts))
  {
    if ts != [] {
      assert ts[|ts| - 1] in ts;
      forall t | t in ts[..|ts| - 1] ensures !DotFile(t.path) {
        assert t in ts;
      }
      OverlayNoDots(files, ts[..|ts| - 1]);
    }
  }

  lemma NothingLeft(strays: Files, torn: seq<Temp>)
    ensures strays + LeftBy(torn) == map[] <==> strays == map[] && torn == []
  {
    if torn != [] {
      assert torn[|torn| - 1].Path() in strays + LeftBy(torn);
    } else if p :| p in strays {
      assert p in strays + LeftBy(torn);
    } else {
      assert strays == map[];
    }
  }

  lemma {:induction false} NothingToRecover(d: Disk, listing: seq<Entry>)
    requires d.dirs == map[]
    ensures OrphanScript(d, listing) == []
    ensures RecoverScript(d, listing) == []
    decreases |listing|
  {
    if listing != [] {
      NothingToRecover(d, listing[1..]);
    }
    NothingToReplay(d, listing);
  }
}
