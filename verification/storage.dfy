/**
 * The engine's disk and its atomic steps. Everything the engine does to the disk is a script of
 * such steps, so a crash is a script cut short.
 */
module Storage {
  import opened Wrappers
  import opened Documents

  type TxId = nat

  datatype Attribution = Attribution(actor: string, keys: seq<string>)
  datatype Target = Target(path: Path, hash: Option<Etag>, who: Attribution)
  datatype Intent = Intent(revision: nat, targets: seq<Target>)
  /** `.journal/transactions/<id>/`: numbered stages and, once recorded, the redo intent. */
  datatype TxDir = TxDir(stages: map<nat, Content>, intent: Option<Intent>)
  datatype Event = Event(path: Path, revision: nat, hash: Option<Etag>, who: Attribution, tx: TxId)
  /**
   * Live files, `.revision`, the journal directories, the events handed to `onWrite`, and temporaries
   * of `.revision`, which lie beside it among the live files.
   */
  datatype Disk = Disk(files: Files, revision: nat, dirs: map<TxId, TxDir>, log: seq<Event>, strays: Files)
  datatype Version = Version(revision: nat, files: Files)

  /** A temporary of `.revision`: the process and UUID in its name, and what of the text is in it. */
  datatype Temp = Temp(tag: string, held: Content) {
    function Path(): Path {
      Documents.Path.Path(Root, ".revision." + tag + ".tmp", false)
    }
  }

  datatype Item = StageItem(index: nat) | IntentItem
  /** What a `finish` leaves open: the order `rm -r` works in, and the temporary it writes the revision through. */
  datatype Manner = Manner(order: seq<Item>, temp: Temp)
  datatype Step =
    | PutIntent(id: TxId, intent: Intent)
    | Install(id: TxId, index: nat, path: Path)
    | Remove(id: TxId, index: nat, path: Path)
    | OpenTemp(id: TxId, temp: Temp)
    | PutRevision(id: TxId, revision: nat, temp: Temp)
    | Emit(event: Event)
    | Unlink(id: TxId, item: Item)
    | RemoveDir(id: TxId)

  function Exec(d: Disk, s: Step): Disk {
    match s
    case PutIntent(id, intent) =>
      if id in d.dirs then d.(dirs := d.dirs[id := d.dirs[id].(intent := Some(intent))]) else d
    case Install(id, i, path) =>
      if id in d.dirs && i in d.dirs[id].stages then
        d.(files := d.files[path := d.dirs[id].stages[i]],
           dirs := d.dirs[id := d.dirs[id].(stages := d.dirs[id].stages - {i})])
      else d
    case Remove(_, _, path) => d.(files := d.files - {path})
    case OpenTemp(_, temp) => d.(strays := d.strays[temp.Path() := temp.held])
    case PutRevision(_, n, temp) => d.(revision := n, strays := d.strays - {temp.Path()})
    case Emit(e) => d.(log := d.log + [e])
    case Unlink(id, item) =>
      if id !in d.dirs then d
      else
        var dir := d.dirs[id];
        d.(dirs := d.dirs[id := if item.IntentItem? then dir.(intent := None)
                                else dir.(stages := dir.stages - {item.index})])
    case RemoveDir(id) => d.(dirs := d.dirs - {id})
  }

  function Run(d: Disk, steps: seq<Step>): Disk
    decreases |steps|
  {
    if steps == [] then d else Run(Exec(d, steps[0]), steps[1..])
  }

  lemma {:induction false} RunConcat(d: Disk, a: seq<Step>, b: seq<Step>)
    ensures Run(d, a + b) == Run(Run(d, a), b)
    decreases |a|
  {
    if a == [] {
      assert a + b == b;
    } else {
      assert (a + b)[0] == a[0] && (a + b)[1..] == a[1..] + b;
      RunConcat(Exec(d, a[0]), a[1..], b);
    }
  }

  // ---- what the disk stands for ----

  predicate Pending(d: Disk, id: TxId) {
    id in d.dirs && d.dirs[id].intent.Some?
  }

  function IntentOf(d: Disk, id: TxId): Intent
    requires Pending(d, id)
  {
    d.dirs[id].intent.value
  }

  ghost predicate SameIntents(d: Disk, e: Disk) {
    && (forall id :: Pending(d, id) <==> Pending(e, id))
    && (forall id :: Pending(d, id) ==> IntentOf(e, id) == IntentOf(d, id))
  }

  ghost predicate Quiet(d: Disk) {
    forall id :: !Pending(d, id)
  }

  ghost predicate Distinct(ts: seq<Target>) {
    forall i, j :: 0 <= i < j < |ts| ==> ts[i].path != ts[j].path
  }

  predicate Landed(files: Files, t: Target) {
    EtagAt(files, t.path) == t.hash
  }

  ghost predicate AllLanded(files: Files, ts: seq<Target>) {
    forall i :: 0 <= i < |ts| ==> Landed(files, ts[i])
  }

  /** Target `i` is in place, is a deletion, or has its payload staged. */
  predicate Available(files: Files, dir: TxDir, i: nat, t: Target) {
    Landed(files, t) || t.hash == None || (i in dir.stages && t.hash == Some(Sha256(dir.stages[i])))
  }

  function Put(files: Files, p: Path, content: Option<Content>): Files {
    if content.Some? then files[p := content.value] else files - {p}
  }

  /** The file set an intent describes, when it is laid over `files`. */
  function Overlay(files: Files, ts: seq<Target>): Files {
    if ts == [] then files
    else
      var t := ts[|ts| - 1];
      Put(Overlay(files, ts[..|ts| - 1]), t.path,
          if t.hash.Some? then Some(t.hash.value.content) else None)
  }

  ghost predicate Untouched(ts: seq<Target>, p: Path) {
    forall i :: 0 <= i < |ts| ==> ts[i].path != p
  }

  lemma {:induction false} OverlayAt(files: Files, ts: seq<Target>, p: Path)
    requires Distinct(ts)
    ensures forall i :: 0 <= i < |ts| && ts[i].path == p ==> EtagAt(Overlay(files, ts), p) == ts[i].hash
    ensures Untouched(ts, p) ==> EtagAt(Overlay(files, ts), p) == EtagAt(files, p)
  {
    if ts != [] {
      var init := ts[..|ts| - 1];
      OverlayAt(files, init, p);
      assert forall i :: 0 <= i < |init| ==> init[i] == ts[i];
      if ts[|ts| - 1].path != p && !Untouched(ts, p) {
        var i :| 0 <= i < |ts| && ts[i].path == p;
        assert init[i].path == p;
      }
    }
  }

  /** An overlay depends on the untouched files only. */
  lemma OverlayAbsorbs(files: Files, files': Files, ts: seq<Target>)
    requires Distinct(ts)
    requires forall p :: Untouched(ts, p) ==> EtagAt(files, p) == EtagAt(files', p)
    ensures Overlay(files, ts) == Overlay(files', ts)
  {
    forall p
      ensures EtagAt(Overlay(files, ts), p) == EtagAt(Overlay(files', ts), p)
    {
      OverlayAt(files, ts, p);
      OverlayAt(files', ts, p);
    }
    SameEtagsSameFiles(Overlay(files, ts), Overlay(files', ts));
  }

  lemma OverlayOfLanded(files: Files, ts: seq<Target>)
    requires Distinct(ts) && AllLanded(files, ts)
    ensures Overlay(files, ts) == files
  {
    forall p
      ensures EtagAt(Overlay(files, ts), p) == EtagAt(files, p)
    {
      OverlayAt(files, ts, p);
      if !Untouched(ts, p) {
        var i :| 0 <= i < |ts| && ts[i].path == p;
        assert Landed(files, ts[i]);
      }
    }
    SameEtagsSameFiles(Overlay(files, ts), files);
  }

  lemma OverlayLands(files: Files, ts: seq<Target>)
    requires Distinct(ts)
    ensures AllLanded(Overlay(files, ts), ts)
  {
    forall i | 0 <= i < |ts|
      ensures Landed(Overlay(files, ts), ts[i])
    {
      OverlayAt(files, ts, ts[i].path);
    }
  }

  /** Recovery can finish this transaction, and it is no more than half done. */
  ghost predicate IntentOk(d: Disk, id: TxId)
    requires Pending(d, id)
  {
    var it := IntentOf(d, id);
    && Distinct(it.targets)
    && d.revision <= it.revision <= d.revision + 1
    && (forall i :: 0 <= i < |it.targets| ==> Available(d.files, d.dirs[id], i, it.targets[i]))
    && (d.revision == it.revision ==> AllLanded(d.files, it.targets))
  }

  /** Journal discipline: at most one recorded intent, and it can be finished. */
  ghost predicate Recoverable(d: Disk) {
    && (forall a, b :: Pending(d, a) && Pending(d, b) ==> a == b)
    && (forall id :: Pending(d, id) ==> IntentOk(d, id))
  }

  /** The database a recoverable disk holds: a recorded intent counts as already applied. */
  ghost predicate Denotes(d: Disk, v: Version) {
    && (Quiet(d) ==> v == Version(d.revision, d.files))
    && (forall id :: Pending(d, id) ==>
          v == Version(IntentOf(d, id).revision, Overlay(d.files, IntentOf(d, id).targets)))
  }

  ghost predicate Settled(d: Disk, id: TxId)
    requires Pending(d, id)
  {
    AllLanded(d.files, IntentOf(d, id).targets) && d.revision == IntentOf(d, id).revision
  }

  // ---- steps that keep the meaning ----

  ghost predicate StepOk(d: Disk, s: Step) {
    match s
    case PutIntent(_, _) => false
    case Install(id, i, p) =>
      && Pending(d, id)
      && i < |IntentOf(d, id).targets|
      && IntentOf(d, id).targets[i].path == p
      && i in d.dirs[id].stages
      && IntentOf(d, id).targets[i].hash == Some(Sha256(d.dirs[id].stages[i]))
    case Remove(id, i, p) =>
      && Pending(d, id)
      && i < |IntentOf(d, id).targets|
      && IntentOf(d, id).targets[i].path == p
      && IntentOf(d, id).targets[i].hash == None
    case OpenTemp(_, _) => true
    case PutRevision(id, n, _) =>
      Pending(d, id) && n == IntentOf(d, id).revision && AllLanded(d.files, IntentOf(d, id).targets)
    case Emit(_) => true
    case Unlink(id, _) => Pending(d, id) ==> Settled(d, id)
    case RemoveDir(id) => Pending(d, id) ==> Settled(d, id)
  }

  lemma LandingKeeps(d: Disk, d': Disk, id: TxId, i: nat, v: Version)
    requires Recoverable(d) && Denotes(d, v) && Pending(d, id)
    requires d'.revision == d.revision && d'.dirs.Keys == d.dirs.Keys
    requires forall x :: x in d.dirs ==> d'.dirs[x].intent == d.dirs[x].intent
    requires i < |IntentOf(d, id).targets|
    requires Landed(d'.files, IntentOf(d, id).targets[i])
    requires forall p :: p != IntentOf(d, id).targets[i].path ==> EtagAt(d'.files, p) == EtagAt(d.files, p)
    requires forall k :: k != i && k in d.dirs[id].stages ==>
               k in d'.dirs[id].stages && d'.dirs[id].stages[k] == d.dirs[id].stages[k]
    ensures Recoverable(d') && Denotes(d', v)
  {
    var ts := IntentOf(d, id).targets;
    assert forall x :: Pending(d', x) <==> Pending(d, x);
    assert IntentOf(d', id) == IntentOf(d, id);
    OverlayAbsorbs(d.files, d'.files, ts);
    forall k | 0 <= k < |ts|
      ensures Available(d'.files, d'.dirs[id], k, ts[k])
      ensures Landed(d.files, ts[k]) ==> Landed(d'.files, ts[k])
    {
      assert Available(d.files, d.dirs[id], k, ts[k]);
    }
  }

  lemma CleaningKeeps(d: Disk, d': Disk, id: TxId, v: Version)
    requires Recoverable(d) && Denotes(d, v)
    requires Pending(d, id) ==> Settled(d, id)
    requires d'.revision == d.revision && d'.files == d.files
    requires d'.dirs.Keys <= d.dirs.Keys
    requires forall x :: x in d.dirs && x != id ==> x in d'.dirs && d'.dirs[x] == d.dirs[x]
    requires id in d'.dirs && d'.dirs[id].intent.Some? ==> d'.dirs[id].intent == d.dirs[id].intent
    ensures Recoverable(d') && Denotes(d', v)
  {
    forall x | Pending(d', x)
      ensures Pending(d, x) && IntentOf(d', x) == IntentOf(d, x) && IntentOk(d', x)
    {
      assert x in d'.dirs;
      assert IntentOk(d, x);
    }
    if Quiet(d') && !Quiet(d) {
      var x :| Pending(d, x);
      assert x != id ==> Pending(d', x);
      OverlayOfLanded(d.files, IntentOf(d, id).targets);
    }
  }

  /** No legal step of a recoverable disk changes the database it holds. */
  lemma StepKeeps(d: Disk, s: Step, v: Version)
    requires Recoverable(d) && Denotes(d, v) && StepOk(d, s)
    ensures Recoverable(Exec(d, s)) && Denotes(Exec(d, s), v)
  {
    var d' := Exec(d, s);
    match s
    case Install(id, i, p) => LandingKeeps(d, d', id, i, v);
    case Remove(id, i, p) => LandingKeeps(d, d', id, i, v);
    case OpenTemp(_, _) =>
      assert forall x :: Pending(d', x) <==> Pending(d, x);
    case PutRevision(id, n, _) =>
      assert forall x :: Pending(d', x) <==> Pending(d, x);
    case Emit(_) =>
      assert forall x :: Pending(d', x) <==> Pending(d, x);
    case Unlink(id, item) => CleaningKeeps(d, d', id, v);
    case RemoveDir(id) => CleaningKeeps(d, d', id, v);
  }

  /** Recording the intent is the commit point: the database becomes the intent's. */
  lemma PutIntentCommits(d: Disk, id: TxId, it: Intent)
    requires Quiet(d) && id in d.dirs && Distinct(it.targets) && it.revision == d.revision + 1
    requires forall i :: 0 <= i < |it.targets| ==> Available(d.files, d.dirs[id], i, it.targets[i])
    ensures Recoverable(d) && Denotes(d, Version(d.revision, d.files))
    ensures Pending(Exec(d, PutIntent(id, it)), id)
    ensures Recoverable(Exec(d, PutIntent(id, it)))
    ensures Denotes(Exec(d, PutIntent(id, it)), Version(it.revision, Overlay(d.files, it.targets)))
  {
    var d' := Exec(d, PutIntent(id, it));
    assert forall x :: Pending(d', x) ==> x == id by {
      forall x | Pending(d', x) ensures x == id {
        assert !Pending(d, x);
      }
    }
    assert !Quiet(d') by {
      assert Pending(d', id);
    }
  }

  /** Every step of `steps`, taken in turn from `d`, is legal where it is taken. */
  ghost predicate Safe(d: Disk, steps: seq<Step>)
    decreases |steps|
  {
    steps == [] || (StepOk(d, steps[0]) && Safe(Exec(d, steps[0]), steps[1..]))
  }

  lemma {:induction false} SafeConcat(d: Disk, a: seq<Step>, b: seq<Step>)
    requires Safe(d, a) && Safe(Run(d, a), b)
    ensures Safe(d, a + b)
    decreases |a|
  {
    if a == [] {
      assert a + b == b;
    } else {
      assert (a + b)[0] == a[0] && (a + b)[1..] == a[1..] + b;
      SafeConcat(Exec(d, a[0]), a[1..], b);
    }
  }

  /** A safe script may be cut anywhere: the database it leaves is the one it found. */
  lemma {:induction false} SafePrefix(d: Disk, steps: seq<Step>, k: nat, v: Version)
    requires Recoverable(d) && Denotes(d, v) && Safe(d, steps) && k <= |steps|
    ensures Recoverable(Run(d, steps[..k])) && Denotes(Run(d, steps[..k]), v)
    decreases |steps|
  {
    if k > 0 {
      StepKeeps(d, steps[0], v);
      assert steps[..k][1..] == steps[1..][..k - 1];
      SafePrefix(Exec(d, steps[0]), steps[1..], k - 1, v);
    }
  }

  // ---- what a reader of the tree sees ----

  /** Every file of the tree but the database's own `.revision` and `.journal`. */
  function Visible(d: Disk): Files {
    d.files + d.strays
  }

  /** A tree without its temporaries, and the temporaries alone. */
  function Bare(files: Files): Files {
    map p | p in files && !DotFile(p) :: files[p]
  }

  function TempsIn(files: Files): Files {
    map p | p in files && DotFile(p) :: files[p]
  }

  ghost predicate NoDots(files: Files) {
    forall p :: p in files ==> !DotFile(p)
  }

  ghost predicate OnlyDots(files: Files) {
    forall p :: p in files ==> DotFile(p)
  }

  lemma BesideSplits(files: Files, strays: Files)
    requires NoDots(files) && OnlyDots(strays)
    ensures Bare(files + strays) == files && TempsIn(files + strays) == strays
    ensures files + strays == files <==> strays == map[]
  {
    if p :| p in strays {
      assert p in files + strays;
    } else {
      assert strays == map[];
      assert files + strays == files;
    }
  }

  // ---- temporaries ----

  lemma StepKeepsDots(d: Disk, s: Step)
    requires OnlyDots(d.strays)
    ensures OnlyDots(Exec(d, s).strays)
  {
    if s.OpenTemp? {
      assert s.temp.Path().name[0] == ".revision."[0];
    }
  }

  /** These temporaries, left where they were. */
  function LeftBy(temps: seq<Temp>): Files {
    if temps == [] then map[]
    else
      var last := temps[|temps| - 1];
      LeftBy(temps[..|temps| - 1])[last.Path() := last.held]
  }

  ghost predicate DistinctTemps(temps: seq<Temp>) {
    forall i, j :: 0 <= i < j < |temps| ==> temps[i].Path() != temps[j].Path()
  }

  lemma {:induction false} LeftByAre(temps: seq<Temp>)
    ensures OnlyDots(LeftBy(temps))
    ensures forall p :: p in LeftBy(temps) <==> exists i :: 0 <= i < |temps| && temps[i].Path() == p
    ensures DistinctTemps(temps) ==> |LeftBy(temps)| == |temps|
  {
    if temps != [] {
      var init, last := temps[..|temps| - 1], temps[|temps| - 1];
      LeftByAre(init);
      assert forall i :: 0 <= i < |init| ==> init[i] == temps[i];
      assert temps[|temps| - 1].Path() == last.Path();
    }
  }

  lemma SomeLeft(temps: seq<Temp>)
    ensures LeftBy(temps) == map[] <==> temps == []
  {
    assert temps != [] ==> temps[|temps| - 1].Path() in LeftBy(temps);
  }

  /** The temporary whose rename is the next step of a script. */
  function OpenOf(steps: seq<Step>): seq<Temp> {
    if steps != [] && steps[0].PutRevision? then [steps[0].temp] else []
  }

  /** Each temporary is new when it is opened, and renamed by the very next step; `open` is so far. */
  ghost predicate Writes(d: Disk, steps: seq<Step>, open: seq<Temp>)
    decreases |steps|
  {
    if steps == [] then open == []
    else
      var d' := Exec(d, steps[0]);
      match steps[0]
      case OpenTemp(_, temp) => open == [] && temp.Path() !in d.strays && Writes(d', steps[1..], [temp])
      case PutRevision(_, _, temp) => open == [temp] && Writes(d', steps[1..], [])
      case _ => open == [] && Writes(d', steps[1..], [])
  }
}
