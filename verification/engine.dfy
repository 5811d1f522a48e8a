/**
 * The engine at work: any number of concurrent calls, two levels of locks, crashes and restarts.
 * One action is one atomic step: a lock granted, a read under the publication lock, one disk step.
 */
module Engine {
  import opened Wrappers
  import opened Documents
  import opened Storage
  import opened Recovery
  import opened Requests
  import opened LockTable

  /** `etag` is a `read` whose answer is hashed. */
  datatype Call = WriteMany(req: Request) | Snapshot | Fetch(path: Path)
  datatype Outcome =
    | Nothing
    | Invalid
    | Failed
    | Conflict(revision: nat)
    | Unchanged(revision: nat)
    | Written(revision: nat)
    | Saw(version: Version)
    | Fetched(content: Option<Content>)

  /** Where a call stands. The publication lock is awaited, then held, in the states `InPub` names. */
  datatype Pc =
    | Booting                                 // awaiting recovery
    | Acquiring                               // taking its path locks, in sorted order
    | Checking                                // all path locks held: validators
    | Reading                                 // one ETag at a time
    | Comparing
    | Refusing                                // a conflict found: reading the revision it reports
    | Staging(j: nat)                         // j payloads staged
    | Entering                                // queued to publish
    | Publishing(script: seq<Step>, result: Outcome)
    | Looking                                 // a snapshot or a read, queued to look
    | Releasing                               // giving its path locks back, last one first
    | Finished

  /** Which nothing reads: how many commits, and how many stray temporaries, there had been on arrival. */
  datatype Proc = Proc(call: Call, pc: Pc, current: seq<Option<Etag>>, tx: Option<TxId>,
                       outcome: Outcome, since: nat, tears: nat)
  {
    function Muts(): seq<Mutation> {
      if call.WriteMany? then call.req.muts else []
    }
  }

  datatype Boot = Down | Recovering(script: seq<Step>) | Up | Wedged
  datatype Commit = Commit(pid: Pid, req: Request)

  /**
   * The disk; the process's memory (`boot` to `pub`), which a crash erases; and, which nothing reads,
   * the history of committed versions and the temporaries of `.revision` ever left behind. `table` holds
   * the path locks and `pub` the callers queued for the publication lock, its holder first.
   */
  datatype State = State(disk: Disk,
                         boot: Boot, broken: bool, procs: map<Pid, Proc>, table: Table, pub: seq<Pid>,
                         versions: seq<Version>, commits: seq<Commit>, torn: seq<Temp>)
  {
    function Last(): Version
      requires versions != []
    {
      versions[|versions| - 1]
    }
  }

  datatype Action =
    | Arrive(pid: Pid, call: Call, order: seq<Path>)
    | Advance(pid: Pid, tx: TxId, how: Manner)
    | Fail(pid: Pid, harm: bool)
    | Crash
    | Restart(listing: seq<Entry>)
    | Recover
    | RecoverFails(harm: bool)

  predicate InPub(pc: Pc) {
    pc.Reading? || pc.Refusing? || pc.Entering? || pc.Publishing? || pc.Looking?
  }

  ghost predicate IsLockOrder(order: seq<Path>, muts: seq<Mutation>) {
    && Sorted(order)
    && (forall i :: 0 <= i < |muts| ==> muts[i].path in order)
    && (forall p :: p in order ==> exists i :: 0 <= i < |muts| && muts[i].path == p)
  }

  predicate Expected(muts: seq<Mutation>, current: seq<Option<Etag>>)
    requires |muts| == |current|
  {
    forall i :: 0 <= i < |muts| ==> ExpectationHolds(current[i], muts[i])
  }

  // ---- transitions ----

  function Goto(s: State, pid: Pid, pc: Pc): State
    requires pid in s.procs
  {
    s.(procs := s.procs[pid := s.procs[pid].(pc := pc)])
  }

  /** The call is over; its path locks go next. */
  function Settle(s: State, pid: Pid, o: Outcome): State
    requires pid in s.procs
  {
    s.(procs := s.procs[pid := s.procs[pid].(pc := Releasing, outcome := o)])
  }

  function LeavePub(s: State): State
    requires s.pub != []
  {
    s.(pub := s.pub[1..])
  }

  function JoinPub(s: State, pid: Pid): State {
    s.(pub := s.pub + [pid])
  }

  /** Whether the call's own next step can be taken now. */
  predicate CanAdvance(s: State, pid: Pid) {
    pid in s.procs && pid in s.table.wants &&
    var p, w := s.procs[pid], s.table.wants[pid];
    match p.pc
    case Booting => s.boot.Up? || s.boot.Wedged?
    case Acquiring => w.queued ==> CanTake(s.table, pid)
    case Checking => p.call.WriteMany?
    case Reading => Heads(s.pub, pid) && |p.current| < |p.Muts()|
    case Comparing => p.call.WriteMany? && |p.current| == |p.Muts()|
    case Refusing => Heads(s.pub, pid)
    case Staging(j) => p.tx.Some? && |p.current| == |p.Muts()|
    case Entering => Heads(s.pub, pid) && p.call.WriteMany? && |p.current| == |p.Muts()|
    case Publishing(_, _) => Heads(s.pub, pid)
    case Looking => Heads(s.pub, pid)
    case Releasing => w.held > 0 ==> CanLeave(s.table, pid)
    case Finished => false
  }

  function Start(s: State, pid: Pid): State
    requires pid in s.procs
  {
    var p := s.procs[pid];
    if s.boot.Wedged? then s.(procs := s.procs[pid := p.(pc := Finished, outcome := Failed)])
    else if !p.call.WriteMany? then JoinPub(Goto(s, pid, Looking), pid)
    else Goto(s, pid, Acquiring)
  }

  function Acquire(s: State, pid: Pid): State
    requires CanAdvance(s, pid) && s.procs[pid].pc.Acquiring?
  {
    if s.table.wants[pid].queued then s.(table := Take(s.table, pid))
    else if CanJoin(s.table, pid) then s.(table := Join(s.table, pid))
    else Goto(s, pid, Checking)
  }

  function Check(s: State, pid: Pid): State
    requires pid in s.procs && s.procs[pid].call.WriteMany?
  {
    var p := s.procs[pid];
    if !Valid(p.call.req) then Settle(s, pid, Invalid)
    else if p.Muts() == [] then Goto(s, pid, Comparing)
    else JoinPub(Goto(s, pid, Reading), pid)
  }

  function Read(s: State, pid: Pid): State
    requires pid in s.procs && s.pub != [] && |s.procs[pid].current| < |s.procs[pid].Muts()|
  {
    var p := s.procs[pid];
    if s.broken then LeavePub(Settle(s, pid, Failed))
    else
      var q := p.(current := p.current + [EtagAt(s.disk.files, p.Muts()[|p.current|].path)]);
      if |q.current| < |p.Muts()| then
        JoinPub(LeavePub(s.(procs := s.procs[pid := q])), pid)
      else
        LeavePub(s.(procs := s.procs[pid := q.(pc := Comparing)]))
  }

  function Compare(s: State, pid: Pid, tx: TxId): State
    requires pid in s.procs && |s.procs[pid].current| == |s.procs[pid].Muts()|
  {
    var p := s.procs[pid];
    if !Expected(p.Muts(), p.current) then JoinPub(Goto(s, pid, Refusing), pid)
    else if Changed(p.Muts(), p.current) == [] then JoinPub(Goto(s, pid, Entering), pid)
    else
      s.(procs := s.procs[pid := p.(pc := Staging(0), tx := Some(tx))],
         disk := s.disk.(dirs := s.disk.dirs[tx := TxDir(map[], None)]))
  }

  function Stage(s: State, pid: Pid, j: nat): State
    requires pid in s.procs && s.procs[pid].tx.Some?
    requires |s.procs[pid].current| == |s.procs[pid].Muts()|
  {
    var p := s.procs[pid];
    var changed := Changed(p.Muts(), p.current);
    if j >= |changed| then JoinPub(Goto(s, pid, Entering), pid)
    else if changed[j].content == None || p.tx.value !in s.disk.dirs then Goto(s, pid, Staging(j + 1))
    else
      var dir := s.disk.dirs[p.tx.value];
      var staged := dir.(stages := dir.stages[j := changed[j].content.value]);
      Goto(s, pid, Staging(j + 1)).(disk := s.disk.(dirs := s.disk.dirs[p.tx.value := staged]))
  }

  function Enter(s: State, pid: Pid, how: Manner): State
    requires pid in s.procs && s.pub != [] && s.procs[pid].call.WriteMany?
    requires |s.procs[pid].current| == |s.procs[pid].Muts()|
  {
    var p := s.procs[pid];
    var req, revision := p.call.req, s.disk.revision;
    if s.broken then LeavePub(Settle(s, pid, Failed))
    else if !ChecksHold(s.disk.files, req) then
      var script := if p.tx.Some? then SweepScript(p.tx.value, how.order) else [];
      Goto(s, pid, Publishing(script, Conflict(revision)))
    else if p.tx == None then Goto(s, pid, Publishing([], Unchanged(revision)))
    else if revision + 1 > MAX_SAFE_INTEGER then LeavePub(Settle(s, pid, Failed))
    else
      var it := Intent(revision + 1, TargetsOf(Changed(req.muts, p.current)));
      var d := Exec(s.disk, PutIntent(p.tx.value, it));
      var script := FinishScript(d, p.tx.value, it, how);
      Goto(s, pid, Publishing(script, Written(revision + 1))).(
        disk := d,
        versions := s.versions + [Version(revision + 1, Publish(s.disk.files, req.muts))],
        commits := s.commits + [Commit(pid, req)])
  }

  function Proceed(s: State, pid: Pid, script: seq<Step>, result: Outcome): State
    requires pid in s.procs && s.pub != []
  {
    if script == [] then LeavePub(Settle(s, pid, result))
    else Goto(s, pid, Publishing(script[1..], result)).(disk := Exec(s.disk, script[0]))
  }

  function ContentAt(files: Files, p: Path): Option<Content> {
    if p in files then Some(files[p]) else None
  }

  /** What a call that only looks is told. */
  function Sight(call: Call, d: Disk): Outcome {
    if call.Fetch? then Fetched(ContentAt(d.files, call.path)) else Saw(Version(d.revision, Visible(d)))
  }

  function Look(s: State, pid: Pid): State
    requires pid in s.procs && s.pub != []
  {
    LeavePub(Settle(s, pid, if s.broken then Failed else Sight(s.procs[pid].call, s.disk)))
  }

  function Release(s: State, pid: Pid): State
    requires CanAdvance(s, pid) && s.procs[pid].pc.Releasing?
  {
    if s.table.wants[pid].held > 0 then s.(table := Leave(s.table, pid)) else Goto(s, pid, Finished)
  }

  function Go(s: State, pid: Pid, tx: TxId, how: Manner): State
    requires CanAdvance(s, pid)
  {
    match s.procs[pid].pc
    case Booting => Start(s, pid)
    case Acquiring => Acquire(s, pid)
    case Checking => Check(s, pid)
    case Reading => Read(s, pid)
    case Comparing => Compare(s, pid, tx)
    case Refusing =>
      LeavePub(Settle(s, pid, if s.broken then Failed else Conflict(s.disk.revision)))
    case Staging(j) => Stage(s, pid, j)
    case Entering => Enter(s, pid, how)
    case Publishing(script, result) => Proceed(s, pid, script, result)
    case Looking => Look(s, pid)
    case Releasing => Release(s, pid)
  }

  /** A call whose body can throw: it holds what it needs to. */
  predicate CanFail(s: State, pid: Pid) {
    && pid in s.procs
    && (InPub(s.procs[pid].pc) ==> Heads(s.pub, pid))
    && match s.procs[pid].pc
       case Booting | Acquiring | Releasing | Finished => false
       case _ => true
  }

  /** The catch block of `FileWriter.write`: a temporary not yet renamed is removed, if it can be. */
  function CleanUp(s: State, script: seq<Step>, harm: bool): State {
    var open := OpenOf(script);
    if open == [] then s
    else if harm then s.(torn := s.torn + open)
    else s.(disk := s.disk.(strays := s.disk.strays - {open[0].Path()}))
  }

  /** The temporary that now awaits its renaming. */
  function Opened(s: State): seq<Temp> {
    match s.boot
    case Recovering(script) => OpenOf(script)
    case _ =>
      if s.pub != [] && s.pub[0] in s.procs && s.procs[s.pub[0]].pc.Publishing?
      then OpenOf(s.procs[s.pub[0]].pc.script) else []
  }

  /**
   * The call throws. While staging, or with a temporary open, `harm` says the clean-up failed as well;
   * when recording the intent, that the engine must be restarted; once an intent is on disk it always
   * must.
   */
  function Throw(s: State, pid: Pid, harm: bool): State
    requires CanFail(s, pid)
  {
    var p := s.procs[pid];
    var t := Settle(s, pid, Failed);
    match p.pc
    case Staging(_) =>
      if harm || p.tx == None then t else t.(disk := s.disk.(dirs := s.disk.dirs - {p.tx.value}))
    case Entering => LeavePub(t.(broken := s.broken || harm))
    case Publishing(script, result) => CleanUp(LeavePub(t.(broken := s.broken || result.Written?)), script, harm)
    case Reading | Refusing | Looking => LeavePub(t)
    case _ => t
  }

  /** A random UUID: no directory and no live call has it. */
  ghost predicate Fresh(s: State, tx: TxId) {
    tx !in s.disk.dirs && forall q :: q in s.procs ==> s.procs[q].tx != Some(tx)
  }

  ghost predicate Enabled(s: State, a: Action) {
    match a
    case Arrive(pid, call, order) =>
      && pid !in s.procs && pid !in s.table.wants
      && (call.WriteMany? ==>
            DistinctPaths(call.req.muts) && LegalPaths(call.req.muts) && IsLockOrder(order, call.req.muts))
      && (call.Fetch? ==> !DotFile(call.path))
      && (!call.WriteMany? ==> order == [])
    case Advance(pid, tx, how) =>
      && CanAdvance(s, pid) && (s.procs[pid].pc.Comparing? ==> Fresh(s, tx))
      && (s.procs[pid].pc.Entering? ==> how.temp.Path() !in s.disk.strays)
    case Fail(pid, _) => CanFail(s, pid)
    case Crash => true
    case Restart(listing) => s.boot.Down? && Lists(listing, s.disk) && FreshTemps(listing, s.disk)
    case Recover => s.boot.Recovering?
    case RecoverFails(_) => s.boot.Recovering?
  }

  function Do(s: State, a: Action): State
    requires match a
             case Advance(pid, _, _) => CanAdvance(s, pid)
             case Fail(pid, _) => CanFail(s, pid)
             case Recover => s.boot.Recovering?
             case RecoverFails(_) => s.boot.Recovering?
             case _ => true
  {
    match a
    case Arrive(pid, call, order) =>
      s.(procs := s.procs[pid := Proc(call, Booting, [], None, Nothing, |s.commits|, |s.torn|)],
         table := Open(s.table, pid, order))
    case Advance(pid, tx, how) => Go(s, pid, tx, how)
    case Fail(pid, harm) => Throw(s, pid, harm)
    case Crash =>
      s.(boot := Down, broken := false, procs := map[], table := Table(map[], map[]), pub := [],
         torn := s.torn + Opened(s))
    case Restart(listing) => s.(boot := Recovering(RecoverScript(s.disk, listing)))
    case Recover =>
      if s.boot.script == [] then s.(boot := Up)
      else s.(boot := Recovering(s.boot.script[1..]), disk := Exec(s.disk, s.boot.script[0]))
    case RecoverFails(harm) => CleanUp(s.(boot := Wedged), s.boot.script, harm)
  }
}
