/** From database events to Git commits: the attribution log, the mirror and the commit message. */
module Attribution {
  import opened Wrappers
  import opened Documents
  import opened Text

  /** One attribution entry; its file holds one per line. */
  datatype Entry = Entry(actor: string, path: string, keys: seq<string>, revision: nat, timestamp: string)
  /** `pending.jsonl` and `sending.jsonl`, either of which may not exist. */
  datatype Logs = Logs(pending: Option<seq<Entry>>, sending: Option<seq<Entry>>) {
    /** What `peek` shows: orphaned entries first. */
    function All(): seq<Entry> {
      sending.GetOr([]) + pending.GetOr([])
    }
  }
  type Tree = map<string, Content>

  // ---- the log ----

  class WriteJournal {
    var pending: Option<seq<Entry>>
    var sending: Option<seq<Entry>>

    constructor (pending: Option<seq<Entry>>, sending: Option<seq<Entry>>)
      ensures this.pending == pending && this.sending == sending
    {
      this.pending := pending;
      this.sending := sending;
    }

    function State(): Logs
      reads this
    {
      Logs(pending, sending)
    }

    method Append(entry: Entry)
      modifies this`pending
      ensures State().All() == old(State().All()) + [entry]
      ensures pending == Some(old(pending).GetOr([]) + [entry])
    {
      pending := Some(pending.GetOr([]) + [entry]);
      assert sending.GetOr([]) + (old(pending).GetOr([]) + [entry]) == old(State().All()) + [entry];
    }

    /** The pending entries become the ones being sent; whatever was being sent before is gone. */
    method Rotate()
      modifies this
      ensures sending == Some(old(pending).GetOr([])) && pending == None
      ensures State().All() == old(State().All()) <==> old(sending).GetOr([]) == []
    {
      sending := None;
      if pending.Some? {
        sending := pending;
        pending := None;
      } else {
        sending := Some([]);
      }
      assert |State().All()| == |old(State().All())| - |old(sending).GetOr([])|;
    }

    method Drain() returns (entries: seq<Entry>)
      ensures entries == sending.GetOr([])
    {
      entries := sending.GetOr([]);
    }

    method Peek() returns (entries: seq<Entry>)
      ensures entries == State().All()
    {
      var sent := sending.GetOr([]);
      var waiting := pending.GetOr([]);
      entries := sent + waiting;
    }

    method Discard()
      modifies this`sending
      ensures sending == None
    {
      sending := None;
    }

    /**
     * Orphaned entries go back in front of the pending ones: if it runs to its end nothing is lost and the
     * order is kept. Opening the file to rewrite it empties it first.
     */
    method Recover()
      modifies this
      ensures State().All() == old(State().All())
      ensures sending.GetOr([]) == []
    {
      var orphaned := sending.GetOr([]);
      if orphaned == [] {
        return;
      }
      var waiting := pending.GetOr([]);
      pending := Some([]);
      pending := Some(orphaned + waiting);
      sending := None;
      assert [] + pending.value == pending.value;
    }
  }

  // ---- the mirror ----

  /** `[...new Set(files)].sort()` of a set. */
  method Sorted(names: set<string>) returns (r: seq<string>)
    ensures Ascending(r) && forall x :: x in r <==> x in names
  {
    r := [];
    var rest := names;
    while rest != {}
      invariant rest <= names && Ascending(r)
      invariant forall x :: x in r <==> x in names && x !in rest
    {
      var x :| x in rest;
      r := Insert(x, r);
      rest := rest - {x};
    }
  }

  class Mirror {
    /** The destination's visible files; `.git`, `.journal` and `.revision` are not among them. */
    var dest: Tree

    constructor (dest: Tree)
      ensures this.dest == dest
    {
      this.dest := dest;
    }

    /** The destination's visible files become exactly the snapshot's; every file of either is listed. */
    method MirrorSnapshot(source: Tree) returns (files: seq<string>)
      modifies this
      ensures dest == source
      ensures Ascending(files) && forall x :: x in files <==> x in source || x in old(dest)
    {
      var previous := dest.Keys;
      var stale := previous;
      while stale != {}
        invariant stale <= previous
        invariant forall p :: p in dest <==> p in previous && (p in stale || p in source)
      {
        var file :| file in stale;
        if file !in source {
          dest := dest - {file};
        }
        stale := stale - {file};
      }
      var incoming := source.Keys;
      while incoming != {}
        invariant incoming <= source.Keys && dest.Keys <= source.Keys
        invariant forall p :: p in source && p !in incoming ==> p in dest && dest[p] == source[p]
      {
        var file :| file in incoming;
        dest := dest[file := source[file]];
        incoming := incoming - {file};
      }
      assert dest.Keys == source.Keys;
      files := Sorted(source.Keys + previous);
    }
  }

  // ---- the commit message ----

  function Join(parts: seq<string>, separator: string): string {
    if parts == [] then ""
    else if |parts| == 1 then parts[0]
    else parts[0] + separator + Join(parts[1..], separator)
  }

  function Actors(entries: seq<Entry>): seq<string> {
    if entries == [] then [] else [entries[0].actor] + Actors(entries[1..])
  }

  function KeysTouched(entries: seq<Entry>): seq<string> {
    if entries == [] then [] else entries[0].keys + KeysTouched(entries[1..])
  }

  predicate UnderConfig(file: string) {
    "config/" <= file
  }

  /** `file.slice(7, -5)`. */
  function NamespaceOf(file: string): string {
    if |file| >= 12 then file[7..|file| - 5] else ""
  }

  function Namespaces(files: seq<string>): seq<string> {
    if files == [] then []
    else (if UnderConfig(files[0]) then [NamespaceOf(files[0])] else []) + Namespaces(files[1..])
  }

  function OrElse(text: string, fallback: string): string {
    if text == "" then fallback else text
  }

  function Subject(files: seq<string>): string {
    var namespaces := SortedSet(Namespaces(files));
    "sync " + if namespaces != [] then Join(namespaces, ", ") else OrElse(Join(files, ", "), "database")
  }

  function Trailers(actors: seq<string>): seq<string> {
    seq(|actors|, i requires 0 <= i < |actors| => "Actor: " + actors[i])
  }

  function Body(entries: seq<Entry>): seq<string> {
    var actors, keys := SortedSet(Actors(entries)), SortedSet(KeysTouched(entries));
    ["", if keys != [] then "Keys: " + Join(keys, ", ") else "Keys: none",
     if actors != [] then "Actors: " + Join(actors, ", ") else "Actors: unknown", ""] + Trailers(actors)
  }

  function ComposeCommitMessage(files: seq<string>, entries: seq<Entry>): string {
    Join([Subject(files)] + Body(entries), "\n")
  }

  lemma {:induction false} ActorsAre(entries: seq<Entry>, x: string)
    ensures x in Actors(entries) <==> exists i :: 0 <= i < |entries| && entries[i].actor == x
  {
    if entries != [] {
      ActorsAre(entries[1..], x);
      assert forall i :: 0 <= i < |entries[1..]| ==> entries[1..][i] == entries[i + 1];
      if i :| 0 <= i < |entries| && entries[i].actor == x {
        assert i > 0 ==> entries[1..][i - 1].actor == x;
      }
    }
  }

  lemma {:induction false} KeysAre(entries: seq<Entry>, x: string)
    ensures x in KeysTouched(entries) <==> exists i :: 0 <= i < |entries| && x in entries[i].keys
  {
    if entries != [] {
      KeysAre(entries[1..], x);
      assert forall i :: 0 <= i < |entries[1..]| ==> entries[1..][i] == entries[i + 1];
      if i :| 0 <= i < |entries| && x in entries[i].keys {
        assert i > 0 ==> x in entries[1..][i - 1].keys;
      }
    }
  }

  lemma {:induction false} NamespacesAre(files: seq<string>, x: string)
    ensures x in Namespaces(files) <==> exists f :: f in files && UnderConfig(f) && NamespaceOf(f) == x
  {
    if files != [] {
      NamespacesAre(files[1..], x);
      assert files == [files[0]] + files[1..];
    }
  }

  /** Joining two lists puts one separator between what each joins to. */
  lemma {:induction false} JoinSplits(a: seq<string>, b: seq<string>, separator: string)
    ensures Join(a + b, separator)
            == if a == [] then Join(b, separator) else if b == [] then Join(a, separator)
               else Join(a, separator) + separator + Join(b, separator)
    ensures Join([], separator) == "" && forall x :: Join([x], separator) == x
  {
    if a == [] {
      assert a + b == b;
    } else if b == [] {
      assert a + b == a;
    } else {
      JoinSplits(a[1..], b, separator);
      assert (a + b)[1..] == a[1..] + b;
      if |a| > 1 {
        assert Join(a, separator) == a[0] + separator + Join(a[1..], separator);
        assert (a[0] + separator + Join(a[1..], separator)) + separator + Join(b, separator)
            == a[0] + separator + (Join(a[1..], separator) + separator + Join(b, separator));
      }
    }
  }

  /** A configuration file is named in the subject by the namespace it holds. */
  lemma NamespaceOfConfig(service: string, environment: string)
    ensures UnderConfig(ConfigYaml(service, environment).Render())
    ensures NamespaceOf(ConfigYaml(service, environment).Render()) == service + "/" + environment
  {
    var file := ConfigYaml(service, environment).Render();
    assert file == "config/" + (service + "/" + environment) + ".yaml";
    assert file[..7] == "config/" && file[7..|file| - 5] == service + "/" + environment;
  }

  /** What a message says: its namespaces, keys and authors, each once and in order, line by line. */
  lemma MessageSays(files: seq<string>, entries: seq<Entry>, namespaces: seq<string>, keys: seq<string>, actors: seq<string>,
                    trailers: seq<string>)
    requires Ascending(namespaces)
    requires forall x :: x in namespaces <==>
               exists f :: f in files && "config/" <= f && x == if |f| >= 12 then f[7..|f| - 5] else ""
    requires Ascending(keys) && forall x :: x in keys <==> exists i :: 0 <= i < |entries| && x in entries[i].keys
    requires Ascending(actors) && forall x :: x in actors <==> exists i :: 0 <= i < |entries| && entries[i].actor == x
    requires |trailers| == |actors| && forall i :: 0 <= i < |actors| ==> trailers[i] == "Actor: " + actors[i]
    ensures
      ComposeCommitMessage(files, entries)
      == Join(["sync " + (if namespaces != [] then Join(namespaces, ", ")
                          else if Join(files, ", ") != "" then Join(files, ", ") else "database"),
               "",
               "Keys: " + (if keys == [] then "none" else Join(keys, ", ")),
               "Actors: " + (if actors == [] then "unknown" else Join(actors, ", ")),
               ""] + trailers, "\n")
  {
    forall x ensures x in SortedSet(Namespaces(files)) <==> x in namespaces {
      NamespacesAre(files, x);
    }
    AscendingIsUnique(SortedSet(Namespaces(files)), namespaces);
    forall x ensures x in SortedSet(KeysTouched(entries)) <==> x in keys {
      KeysAre(entries, x);
    }
    AscendingIsUnique(SortedSet(KeysTouched(entries)), keys);
    forall x ensures x in SortedSet(Actors(entries)) <==> x in actors {
      ActorsAre(entries, x);
    }
    AscendingIsUnique(SortedSet(Actors(entries)), actors);
    LinesAre(files, entries, namespaces, keys, actors, trailers);
  }

  lemma LinesAre(files: seq<string>, entries: seq<Entry>, namespaces: seq<string>, keys: seq<string>, actors: seq<string>,
                 trailers: seq<string>)
    requires SortedSet(Namespaces(files)) == namespaces
    requires SortedSet(KeysTouched(entries)) == keys && SortedSet(Actors(entries)) == actors
    requires |trailers| == |actors| && forall i :: 0 <= i < |actors| ==> trailers[i] == "Actor: " + actors[i]
    ensures [Subject(files)] + Body(entries)
            == ["sync " + (if namespaces != [] then Join(namespaces, ", ")
                           else if Join(files, ", ") != "" then Join(files, ", ") else "database"),
                "",
                "Keys: " + (if keys == [] then "none" else Join(keys, ", ")),
                "Actors: " + (if actors == [] then "unknown" else Join(actors, ", ")),
                ""] + trailers
  {
    assert Trailers(actors) == trailers;
    assert "Keys: " + "none" == "Keys: none";
    assert "Actors: " + "unknown" == "Actors: unknown";
    FrontLine(Subject(files), "", if keys != [] then "Keys: " + Join(keys, ", ") else "Keys: none",
              if actors != [] then "Actors: " + Join(actors, ", ") else "Actors: unknown", "", trailers);
  }

  lemma FrontLine(a: string, b: string, c: string, d: string, e: string, rest: seq<string>)
    ensures [a] + ([b, c, d, e] + rest) == [a, b, c, d, e] + rest
  {
  }

  /** The same actors and the same keys, however often and in whatever order. */
  ghost predicate SameAttribution(a: seq<Entry>, b: seq<Entry>) {
    && (forall x :: x in Actors(a) <==> x in Actors(b))
    && (forall x :: x in KeysTouched(a) <==> x in KeysTouched(b))
  }

  /** Entries repeated or reordered by a replay say the same. */
  lemma SameEntriesSameAttribution(a: seq<Entry>, b: seq<Entry>)
    requires forall e :: e in a <==> e in b
    ensures SameAttribution(a, b)
  {
    forall x ensures x in Actors(a) <==> x in Actors(b) {
      ActorsAre(a, x);
      ActorsAre(b, x);
      forall i | 0 <= i < |a| ensures exists j :: 0 <= j < |b| && b[j] == a[i] { assert a[i] in b; }
      forall j | 0 <= j < |b| ensures exists i :: 0 <= i < |a| && a[i] == b[j] { assert b[j] in a; }
    }
    forall x ensures x in KeysTouched(a) <==> x in KeysTouched(b) {
      KeysAre(a, x);
      KeysAre(b, x);
      forall i | 0 <= i < |a| ensures exists j :: 0 <= j < |b| && b[j] == a[i] { assert a[i] in b; }
      forall j | 0 <= j < |b| ensures exists i :: 0 <= i < |a| && a[i] == b[j] { assert b[j] in a; }
    }
  }

  lemma SameBody(a: seq<Entry>, b: seq<Entry>)
    requires SameAttribution(a, b)
    ensures Body(a) == Body(b)
  {
    AscendingIsUnique(SortedSet(Actors(a)), SortedSet(Actors(b)));
    AscendingIsUnique(SortedSet(KeysTouched(a)), SortedSet(KeysTouched(b)));
  }

  lemma SameNamespaces(a: seq<string>, b: seq<string>)
    requires forall f :: f in a <==> f in b
    ensures SortedSet(Namespaces(a)) == SortedSet(Namespaces(b))
    ensures SortedSet(Namespaces(a)) != [] <==> exists f :: f in a && UnderConfig(f)
  {
    forall x ensures x in Namespaces(a) <==> x in Namespaces(b) {
      NamespacesAre(a, x);
      NamespacesAre(b, x);
    }
    AscendingIsUnique(SortedSet(Namespaces(a)), SortedSet(Namespaces(b)));
    if f :| f in a && UnderConfig(f) {
      NamespacesAre(a, NamespaceOf(f));
      assert NamespaceOf(f) in SortedSet(Namespaces(a));
    } else if SortedSet(Namespaces(a)) != [] {
      var x := SortedSet(Namespaces(a))[0];
      assert x in Namespaces(a);
      NamespacesAre(a, x);
    }
  }

  lemma SubjectFirst(files: seq<string>, entries: seq<Entry>)
    ensures ComposeCommitMessage(files, entries) == Subject(files) + "\n" + Join(Body(entries), "\n")
  {
    var parts := [Subject(files)] + Body(entries);
    assert parts[1..] == Body(entries);
  }

  lemma FirstLinesAgree(a: string, b: string, rest: string)
    ensures a + "\n" + rest == b + "\n" + rest <==> a == b
  {
    var x, y := a + "\n" + rest, b + "\n" + rest;
    if x == y {
      assert |x| == |a| + 1 + |rest| && |y| == |b| + 1 + |rest|;
      assert x[..|a|] == a && y[..|b|] == b;
    }
  }

  lemma SubjectsAgree(files: seq<string>, files': seq<string>)
    requires forall f :: f in files <==> f in files'
    ensures Subject(files) == Subject(files')
            <==> (exists f :: f in files && UnderConfig(f))
                 || OrElse(Join(files, ", "), "database") == OrElse(Join(files', ", "), "database")
  {
    SameNamespaces(files, files');
    var f, f' := OrElse(Join(files, ", "), "database"), OrElse(Join(files', ", "), "database");
    assert ("sync " + f)[5..] == f && ("sync " + f')[5..] == f';
  }

  /**
   * The message depends on the sets of actors, keys and files, except that the files of a commit that
   * touches no configuration are listed as given: two listings of one file set then give one message
   * if and only if they read the same.
   */
  lemma MessageIsCanonical(files: seq<string>, files': seq<string>, entries: seq<Entry>, entries': seq<Entry>)
    requires SameAttribution(entries, entries') && forall f :: f in files <==> f in files'
    ensures ComposeCommitMessage(files, entries) == ComposeCommitMessage(files', entries')
            <==> (exists f :: f in files && UnderConfig(f))
                 || OrElse(Join(files, ", "), "database") == OrElse(Join(files', ", "), "database")
  {
    SameBody(entries, entries');
    SubjectFirst(files, entries);
    SubjectFirst(files', entries');
    SubjectsAgree(files, files');
    FirstLinesAgree(Subject(files), Subject(files'), Join(Body(entries), "\n"));
  }

  /** With the sorted listing the mirror returns, entries replayed after a crash give the same message. */
  lemma ReplayGivesTheSameMessage(files: seq<string>, files': seq<string>, entries: seq<Entry>, entries': seq<Entry>)
    requires Ascending(files) && Ascending(files') && forall f :: f in files <==> f in files'
    requires forall e :: e in entries <==> e in entries'
    ensures ComposeCommitMessage(files, entries) == ComposeCommitMessage(files', entries')
  {
    AscendingIsUnique(files, files');
    SameEntriesSameAttribution(entries, entries');
    MessageIsCanonical(files, files', entries, entries');
  }

  /** An unsorted listing without configuration shows through. */
  lemma MessageShowsFileOrder()
    ensures ComposeCommitMessage(["a", "b"], []) != ComposeCommitMessage(["b", "a"], [])
  {
    assert ["a", "b"][1..] == ["b"] && ["b", "a"][1..] == ["a"];
    assert Join(["a", "b"], ", ")[0] == 'a' && Join(["b", "a"], ", ")[0] == 'b';
    assert forall f :: f in ["a", "b"] ==> f == "a" || f == "b";
    MessageIsCanonical(["a", "b"], ["b", "a"], [], []);
  }

  // ---- one synchronization ----

  datatype CommitRecord = CommitRecord(message: string, tree: Tree)
  datatype SyncResult =
    | Clean(files: seq<string>)
    | Synced(files: seq<string>)
    | Deferred(files: seq<string>)
    | Failed

  class SyncEngine {
    const journal: WriteJournal
    const mirror: Mirror
    /** The repository's commits, oldest first, and what its remote was last told of. */
    var commits: seq<CommitRecord>
    var published: nat

    constructor (journal: WriteJournal, mirror: Mirror, commits: seq<CommitRecord>)
      ensures this.journal == journal && this.mirror == mirror && this.commits == commits && published == 0
    {
      this.journal := journal;
      this.mirror := mirror;
      this.commits := commits;
      published := 0;
    }

    function Head(): Tree
      reads this
    {
      if commits == [] then map[] else commits[|commits| - 1].tree
    }

    /**
     * `performSync` on a snapshot taken after the rotation. A commit happens exactly when the tree
     * differs from the last one; it holds the snapshot and names what was pending. Only a commit that
     * fails leaves entries in `sending`.
     */
    method PerformSync(snapshot: Tree, commits?: bool, pushes?: bool) returns (r: SyncResult)
      modifies this, journal, mirror
      ensures mirror.dest == snapshot && journal.pending == None
      ensures !r.Failed? ==> Ascending(r.files) && forall x :: x in r.files <==> x in snapshot || x in old(mirror.dest)
      ensures snapshot == old(Head()) ==> r.Clean? && commits == old(commits) && journal.sending == None
      ensures snapshot != old(Head()) && !commits? ==>
                r.Failed? && commits == old(commits) && journal.sending == Some(old(journal.pending).GetOr([]))
      ensures snapshot != old(Head()) && commits? ==>
                && journal.sending == None && Head() == snapshot
                && !r.Failed?
                && commits == old(commits)
                              + [CommitRecord(ComposeCommitMessage(r.files, old(journal.pending).GetOr([])), snapshot)]
                && (if pushes? then r.Synced? && published == |commits| else r.Deferred? && published == old(published))
    {
      journal.Rotate();
      var files := mirror.MirrorSnapshot(snapshot);
      var changed := mirror.dest != Head();
      if !changed {
        journal.Discard();
        return Clean(files);
      }
      var entries := journal.Drain();
      if !commits? {
        return Failed;
      }
      commits := commits + [CommitRecord(ComposeCommitMessage(files, entries), mirror.dest)];
      journal.Discard();
      if pushes? {
        published := |commits|;
        return Synced(files);
      }
      return Deferred(files);
    }
  }
}
