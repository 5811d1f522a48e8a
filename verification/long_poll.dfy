/** Held-open reads: the cache, its waiters, and the answers they are given. */
module LongPoll {
  import opened Wrappers
  import opened Documents
  import opened Schemas

  type Flags = map<string, bool>
  type ReaderId = nat
  datatype Snapshot = Snapshot(commit: string, namespaces: map<string, Config>)
  datatype Cache = Cache(tree: Option<Snapshot>, flags: map<string, Flags>, synced: Option<string>) {
    function Commit(): Option<string> {
      if tree.Some? then Some(tree.value.commit) else None
    }

    function Get(namespace: string): Option<Config> {
      if tree.Some? && namespace in tree.value.namespaces then Some(tree.value.namespaces[namespace]) else None
    }

    function FlagsFor(environment: string): Flags {
      if environment in flags then flags[environment] else map[]
    }
  }

  /** What one `reload` brings. Flags for no environment in particular are filed under the empty name. */
  datatype Reload = Reload(tree: Snapshot, flags: map<string, Flags>, synced: Option<string>)

  function Reloaded(cache: Cache, r: Reload): Cache {
    Cache(Some(r.tree), r.flags, if r.synced.Some? then r.synced else cache.synced)
  }

  /** The waiters a commit leaves waiting. */
  function StillCurrent(listeners: map<ReaderId, string>, commit: string): map<ReaderId, string> {
    map id | id in listeners && listeners[id] == commit :: listeners[id]
  }

  // ---- the cache and its listeners ----

  class ConfigCache {
    var cache: Cache
    /** Each registered waiter and the commit it already has. */
    var listeners: map<ReaderId, string>
    /** Waiters whose promise has resolved. */
    var woken: set<ReaderId>

    constructor ()
      ensures cache == Cache(None, map[], None) && listeners == map[] && woken == {}
    {
      cache := Cache(None, map[], None);
      listeners := map[];
      woken := {};
    }

    /** No waiter is registered whose answer is already due. */
    ghost predicate Valid()
      reads this
    {
      forall id :: id in listeners ==> cache.Commit() == Some(listeners[id])
    }

    /** The waiter's `finish`: the promise resolves once and the subscription goes. */
    method Finish(id: ReaderId)
      modifies this`listeners, this`woken
      ensures listeners == old(listeners) - {id} && woken == old(woken) + {id}
    {
      listeners := listeners - {id};
      woken := woken + {id};
    }

    /** Replaces the tree wholesale, then calls every listener; exactly the stale ones finish. */
    method ReloadWith(r: Reload)
      modifies this
      ensures cache == Reloaded(old(cache), r) && Valid()
      ensures listeners == StillCurrent(old(listeners), r.tree.commit)
      ensures woken == old(woken) + (set id | id in old(listeners) && old(listeners)[id] != r.tree.commit)
    {
      cache := Reloaded(cache, r);
      var called := listeners.Keys;
      ghost var before := listeners;
      while called != {}
        invariant called <= before.Keys && cache == Reloaded(old(cache), r)
        invariant listeners.Keys == set id | id in before && (id in called || before[id] == r.tree.commit)
        invariant forall id :: id in listeners ==> listeners[id] == before[id]
        invariant woken == old(woken) + (set id | id in before && id !in called && before[id] != r.tree.commit)
      {
        var id :| id in called;
        if cache.Commit() != Some(listeners[id]) {
          Finish(id);
        }
        called := called - {id};
      }
      assert listeners == StillCurrent(before, r.tree.commit);
    }

    /** `waitForChange`: subscribe, then look again, since the commit may already have moved. */
    method WaitForChange(id: ReaderId, since: string)
      requires Valid() && id !in listeners && id !in woken
      modifies this`listeners, this`woken
      ensures Valid()
      ensures if cache.Commit() == Some(since) then listeners == old(listeners)[id := since] && woken == old(woken)
              else listeners == old(listeners) && woken == old(woken) + {id}
    {
      listeners := listeners[id := since];
      if cache.Commit() != Some(since) {
        Finish(id);
        assert listeners == old(listeners);
      }
    }
  }

  // ---- the read route ----

  datatype Reader = Reader(uid: nat, service: string, environment: string) {
    function Namespace(): string { service + "/" + environment }
  }

  datatype Response =
    | Refused
    | NotModified
    | Absent
    | Served(commit: Option<string>, retiring: bool, config: Config, flags: Flags, synced: Option<string>)

  datatype Pc = Waiting(since: string) | Resuming(since: string) | Answered(response: Response)
  datatype Request = Request(reader: Reader, pc: Pc)

  /** The server; `reloads` is every reload so far, which nothing reads. */
  datatype Server = Server(cache: Cache, listeners: map<ReaderId, string>, requests: map<ReaderId, Request>,
                           grants: set<(nat, string)>, retiring: set<string>, reloads: seq<Reload>)

  datatype Action =
    | Arrive(id: ReaderId, reader: Reader, since: Option<string>)
    | Bring(reload: Reload)
    | TimeOut(id: ReaderId)
    | Resume(id: ReaderId)
    | Regrant(grants: set<(nat, string)>, retiring: set<string>)
    | MarkSynced(commit: string)

  predicate Authorised(s: Server, r: Reader) {
    (r.uid, r.Namespace()) in s.grants
  }

  function Answer(s: Server, r: Reader): Response {
    var stored := s.cache.Get(r.Namespace());
    if stored.None? then Absent
    else Served(s.cache.Commit(), r.service in s.retiring, ConfigOnly(stored.value),
                s.cache.FlagsFor(r.environment), s.cache.synced)
  }

  predicate Enabled(s: Server, a: Action) {
    match a
    case Arrive(id, _, _) => id !in s.requests && id !in s.listeners
    case TimeOut(id) => id in s.requests && s.requests[id].pc.Waiting?
    case Resume(id) => id in s.requests && s.requests[id].pc.Resuming?
    case _ => true
  }

  function Woken(requests: map<ReaderId, Request>, commit: string): map<ReaderId, Request> {
    map id | id in requests ::
      if requests[id].pc.Waiting? && requests[id].pc.since != commit
      then requests[id].(pc := Resuming(requests[id].pc.since)) else requests[id]
  }

  /** What a request that has been let in is told once it waits no longer. */
  function Reply(s: Server, r: Reader, since: string): Response {
    if !Authorised(s, r) then Refused
    else if s.cache.Commit() == Some(since) then NotModified
    else Answer(s, r)
  }

  function Do(s: Server, a: Action): Server
    requires Enabled(s, a)
  {
    match a
    case Arrive(id, r, since) =>
      if !Authorised(s, r) then s.(requests := s.requests[id := Request(r, Answered(Refused))])
      else if since.Some? && since.value != "" && Some(since.value) == s.cache.Commit() then
        s.(requests := s.requests[id := Request(r, Waiting(since.value))],
           listeners := s.listeners[id := since.value])
      else s.(requests := s.requests[id := Request(r, Answered(Answer(s, r)))])
    case Bring(reload) =>
      s.(cache := Reloaded(s.cache, reload), listeners := StillCurrent(s.listeners, reload.tree.commit),
         requests := Woken(s.requests, reload.tree.commit), reloads := s.reloads + [reload])
    case TimeOut(id) =>
      s.(listeners := s.listeners - {id},
         requests := s.requests[id := s.requests[id].(pc := Resuming(s.requests[id].pc.since))])
    case Resume(id) =>
      var r := s.requests[id];
      s.(requests := s.requests[id := r.(pc := Answered(Reply(s, r.reader, r.pc.since)))])
    case Regrant(grants, retiring) => s.(grants := grants, retiring := retiring)
    case MarkSynced(commit) => s.(cache := s.cache.(synced := Some(commit)))
  }

  ghost predicate Legal(s: Server, actions: seq<Action>)
    decreases |actions|
  {
    actions == [] || (Enabled(s, actions[0]) && Legal(Do(s, actions[0]), actions[1..]))
  }

  ghost function After(s: Server, actions: seq<Action>): Server
    requires Legal(s, actions)
    decreases |actions|
  {
    if actions == [] then s else After(Do(s, actions[0]), actions[1..])
  }

  /** A 200 carries the commit, the values and the flags of one reload. */
  ghost predicate FromOneReload(reloads: seq<Reload>, reader: Reader, response: Response) {
    response.Served? ==>
      exists k :: 0 <= k < |reloads| && Pairs(reloads[k], reader, response)
  }

  predicate Pairs(r: Reload, reader: Reader, response: Response)
    requires response.Served?
  {
    && response.commit == Some(r.tree.commit)
    && reader.Namespace() in r.tree.namespaces
    && response.config == ConfigOnly(r.tree.namespaces[reader.Namespace()])
    && response.flags == if reader.environment in r.flags then r.flags[reader.environment] else map[]
  }

  ghost predicate RequestOk(s: Server, id: ReaderId)
    requires id in s.requests
  {
    var r := s.requests[id];
    && (r.pc.Waiting? <==> id in s.listeners)
    && (r.pc.Waiting? ==> s.listeners[id] == r.pc.since && s.cache.Commit() == Some(r.pc.since))
    && (r.pc.Answered? ==> FromOneReload(s.reloads, r.reader, r.pc.response))
  }

  ghost predicate Inv(s: Server) {
    && (forall id :: id in s.requests ==> RequestOk(s, id))
    && s.listeners.Keys <= s.requests.Keys
    && (s.cache.tree.Some? ==>
          && s.reloads != []
          && s.cache.tree == Some(s.reloads[|s.reloads| - 1].tree) && s.cache.flags == s.reloads[|s.reloads| - 1].flags)
  }

  lemma AnswerPairs(s: Server, r: Reader)
    requires Inv(s)
    ensures FromOneReload(s.reloads, r, Answer(s, r))
  {
    if Answer(s, r).Served? {
      assert Pairs(s.reloads[|s.reloads| - 1], r, Answer(s, r));
    }
  }

  lemma PairingGrows(reloads: seq<Reload>, more: Reload, reader: Reader, response: Response)
    requires FromOneReload(reloads, reader, response)
    ensures FromOneReload(reloads + [more], reader, response)
  {
    if response.Served? {
      var k :| 0 <= k < |reloads| && Pairs(reloads[k], reader, response);
      assert Pairs((reloads + [more])[k], reader, response);
    }
  }

  lemma BringKeeps(s: Server, r: Reload)
    requires Inv(s)
    ensures Inv(Do(s, Bring(r)))
  {
    var t := Do(s, Bring(r));
    forall id | id in t.requests ensures RequestOk(t, id) {
      assert RequestOk(s, id);
      if s.requests[id].pc.Answered? {
        PairingGrows(s.reloads, r, s.requests[id].reader, s.requests[id].pc.response);
      }
    }
  }

  lemma StepKeeps(s: Server, a: Action)
    requires Inv(s) && Enabled(s, a)
    ensures Inv(Do(s, a))
  {
    if a.Bring? {
      BringKeeps(s, a.reload);
    } else {
      var t := Do(s, a);
      if a.Arrive? {
        AnswerPairs(s, a.reader);
      } else if a.Resume? {
        AnswerPairs(s, s.requests[a.id].reader);
      }
      forall id | id in t.requests ensures RequestOk(t, id) {
        assert id in s.requests ==> RequestOk(s, id);
      }
    }
  }

  lemma {:induction false} RunKeeps(s: Server, actions: seq<Action>)
    requires Inv(s) && Legal(s, actions)
    ensures Inv(After(s, actions))
    decreases |actions|
  {
    if actions != [] {
      StepKeeps(s, actions[0]);
      RunKeeps(Do(s, actions[0]), actions[1..]);
    }
  }

  /** A server that has just started. */
  function Started(grants: set<(nat, string)>, retiring: set<string>): Server {
    Server(Cache(None, map[], None), map[], map[], grants, retiring, [])
  }

  /**
   * No lost wake-up: in every run of a server, whatever the interleaving of arrivals, reloads, timeouts
   * and grant changes, a request that is still held is registered with the cache, and the cache is still
   * at the commit it already has; a registered waiter is a held request; and every 200 pairs the values
   * and commit of one reload.
   */
  lemma NoLostWakeup(grants: set<(nat, string)>, retiring: set<string>, actions: seq<Action>)
    requires Legal(Started(grants, retiring), actions)
    ensures
      var t := After(Started(grants, retiring), actions);
      && (forall id :: id in t.requests && t.requests[id].pc.Waiting? ==>
            id in t.listeners && t.cache.Commit() == Some(t.requests[id].pc.since))
      && (forall id :: id in t.listeners ==> id in t.requests && t.requests[id].pc.Waiting?)
      && (forall id :: id in t.requests && t.requests[id].pc.Answered? ==>
            FromOneReload(t.reloads, t.requests[id].reader, t.requests[id].pc.response))
  {
    RunKeeps(Started(grants, retiring), actions);
    var t := After(Started(grants, retiring), actions);
    forall id | id in t.requests
      ensures t.requests[id].pc.Waiting? ==> id in t.listeners && t.cache.Commit() == Some(t.requests[id].pc.since)
      ensures id in t.listeners ==> t.requests[id].pc.Waiting?
      ensures t.requests[id].pc.Answered? ==> FromOneReload(t.reloads, t.requests[id].reader, t.requests[id].pc.response)
    {
      assert RequestOk(t, id);
    }
  }

  /** A request is held exactly if it is granted and names the commit the cache is at. */
  lemma HeldIff(s: Server, id: ReaderId, reader: Reader, since: Option<string>)
    requires Enabled(s, Arrive(id, reader, since))
    ensures
      var t := Do(s, Arrive(id, reader, since));
      && id in t.requests && t.requests[id].reader == reader
      && (t.requests[id].pc.Waiting? <==>
            && (reader.uid, reader.service + "/" + reader.environment) in s.grants
            && s.cache.tree.Some? && since == Some(s.cache.tree.value.commit) && since != Some(""))
      && (t.requests[id].pc.Waiting? ==> Some(t.requests[id].pc.since) == since)
      && (!t.requests[id].pc.Waiting? ==> t.requests[id].pc.Answered?)
  {
  }

  /** A held request that is woken, or has waited long enough, is answered when it next runs. */
  lemma LetGoIsAnswered(s: Server, id: ReaderId)
    requires Enabled(s, TimeOut(id)) || Enabled(s, Resume(id))
    ensures s.requests[id].pc.Waiting? ==>
              var t := Do(s, TimeOut(id));
              t.requests[id] == s.requests[id].(pc := Resuming(s.requests[id].pc.since)) && id !in t.listeners
    ensures s.requests[id].pc.Resuming? ==> Answers(Do(s, Resume(id)), id)
  {
  }

  /** The last commit these actions report as synchronized, or `before` if none does. */
  function LastSynced(before: Option<string>, actions: seq<Action>): Option<string> {
    if actions == [] then before
    else
      match actions[|actions| - 1]
      case MarkSynced(commit) => Some(commit)
      case Bring(reload) => if reload.synced.Some? then reload.synced else LastSynced(before, actions[..|actions| - 1])
      case _ => LastSynced(before, actions[..|actions| - 1])
  }

  lemma {:induction false} LastSyncedFirst(before: Option<string>, a: Action, rest: seq<Action>)
    ensures LastSynced(before, [a] + rest) == LastSynced(LastSynced(before, [a]), rest)
    decreases |rest|
  {
    if rest == [] {
      assert [a] + rest == [a];
    } else {
      var n := |rest| - 1;
      assert ([a] + rest)[..|rest|] == [a] + rest[..n] && ([a] + rest)[|rest|] == rest[n];
      LastSyncedFirst(before, a, rest[..n]);
    }
  }

  /** What the cache reports as synchronized is what it was told last. */
  lemma {:induction false} SyncedIsTheLast(s: Server, actions: seq<Action>)
    requires Legal(s, actions)
    ensures After(s, actions).cache.synced == LastSynced(s.cache.synced, actions)
    decreases |actions|
  {
    if actions != [] {
      var a, rest := actions[0], actions[1..];
      SyncedIsTheLast(Do(s, a), rest);
      assert [a][..0] == [] && actions == [a] + rest;
      LastSyncedFirst(s.cache.synced, a, rest);
    }
  }

  /** The grants and retirements in force are those last loaded. */
  lemma {:induction false} GrantsAreTheLast(s: Server, actions: seq<Action>, i: nat)
    requires Legal(s, actions) && i < |actions| && actions[i].Regrant?
    requires forall j :: i < j < |actions| ==> !actions[j].Regrant?
    ensures After(s, actions).grants == actions[i].grants && After(s, actions).retiring == actions[i].retiring
    decreases |actions|
  {
    var next, rest := Do(s, actions[0]), actions[1..];
    if i > 0 {
      GrantsAreTheLast(next, rest, i - 1);
    } else {
      GrantsStay(next, rest);
    }
  }

  lemma {:induction false} GrantsStay(s: Server, actions: seq<Action>)
    requires Legal(s, actions) && forall j :: 0 <= j < |actions| ==> !actions[j].Regrant?
    ensures After(s, actions).grants == s.grants && After(s, actions).retiring == s.retiring
    decreases |actions|
  {
    if actions != [] {
      GrantsStay(Do(s, actions[0]), actions[1..]);
    }
  }

  /** A reload moves every held request that is now stale, at once, and no other. */
  lemma ReloadWakesTheStale(s: Server, r: Reload, id: ReaderId)
    requires Inv(s) && id in s.requests && s.requests[id].pc.Waiting?
    ensures
      var t := Do(s, Bring(r));
      && (t.requests[id].pc.Resuming? <==> s.requests[id].pc.since != r.tree.commit)
      && (t.requests[id].pc.Waiting? <==> s.requests[id].pc.since == r.tree.commit)
      && (id in t.listeners <==> t.requests[id].pc.Waiting?)
  {
    assert RequestOk(s, id);
    BringKeeps(s, r);
    assert RequestOk(Do(s, Bring(r)), id);
  }

  /** The values a tree holds for a namespace, without the document's own metadata. */
  ghost predicate Carries(values: Config, stored: Config) {
    && (forall k :: k in values <==> k in stored && k != "version" && k != "sops")
    && (forall k :: k in values ==> values[k] == stored[k])
  }

  /** A 200 as the server then stood: its tree's commit and values, its flags, its retirements, its last sync. */
  ghost predicate ServedFrom(at: Server, reader: Reader, response: Response)
    requires response.Served?
  {
    var namespace := reader.service + "/" + reader.environment;
    && at.cache.tree.Some? && namespace in at.cache.tree.value.namespaces
    && response.commit == Some(at.cache.tree.value.commit)
    && Carries(response.config, at.cache.tree.value.namespaces[namespace])
    && (if reader.environment in at.cache.flags then response.flags == at.cache.flags[reader.environment]
        else response.flags == map[])
    && (response.retiring <==> reader.service in at.retiring)
    && response.synced == at.cache.synced
  }

  /**
   * `at` is a moment at which this answer is the right one. Without a grant it is a refusal. With one it
   * is "not modified" exactly for a request let go while the commit is still its reader's own, and else
   * the values if the tree has any for the namespace, and "absent" if it has none.
   */
  ghost predicate Due(at: Server, id: ReaderId, r: Request) {
    && r.pc.Answered?
    && var response, namespace := r.pc.response, r.reader.service + "/" + r.reader.environment;
       && (response.Refused? <==> (r.reader.uid, namespace) !in at.grants)
       && (response.NotModified? <==>
             && (r.reader.uid, namespace) in at.grants && id in at.requests && at.requests[id].pc.Resuming?
             && at.cache.tree.Some? && at.cache.tree.value.commit == at.requests[id].pc.since)
       && (!response.Refused? && !response.NotModified? ==>
             && (response.Served? <==> at.cache.tree.Some? && namespace in at.cache.tree.value.namespaces)
             && (response.Absent? <==> !(at.cache.tree.Some? && namespace in at.cache.tree.value.namespaces)))
       && (response.Served? ==> ServedFrom(at, r.reader, response))
  }

  predicate Answers(s: Server, id: ReaderId) {
    id in s.requests && s.requests[id].pc.Answered?
  }

  lemma AnswersAreDue(s: Server, a: Action, id: ReaderId)
    requires Enabled(s, a) && Answers(Do(s, a), id) && !Answers(s, id)
    ensures Due(s, id, Do(s, a).requests[id])
  {
  }

  lemma {:induction false} AnswerStays(s: Server, actions: seq<Action>, id: ReaderId)
    requires Legal(s, actions) && Answers(s, id)
    ensures Answers(After(s, actions), id) && After(s, actions).requests[id] == s.requests[id]
    decreases |actions|
  {
    if actions != [] {
      AnswerStays(Do(s, actions[0]), actions[1..], id);
    }
  }

  /**
   * Over every run, whoever was answered was answered at some moment at which the answer was due: a reader
   * whose grant was gone by then was refused, "not modified" was said while the commit was still the
   * reader's own, and values, or their absence, are those of that moment.
   */
  lemma {:induction false} EveryAnswerWasDue(s: Server, actions: seq<Action>, id: ReaderId) returns (k: nat)
    requires Legal(s, actions) && !Answers(s, id) && Answers(After(s, actions), id)
    ensures k < |actions| && Legal(s, actions[..k]) && Due(After(s, actions[..k]), id, After(s, actions).requests[id])
    decreases |actions|
  {
    var next := Do(s, actions[0]);
    if Answers(next, id) {
      k := 0;
      AnswersAreDue(s, actions[0], id);
      AnswerStays(next, actions[1..], id);
    } else {
      var later := EveryAnswerWasDue(next, actions[1..], id);
      k := later + 1;
      assert actions[..k][0] == actions[0] && actions[..k][1..] == actions[1..][..later];
    }
  }
}
