/** The client every consuming service imports: local defaults, a cache file, and what the server says. */
module ConfigClients {
  import opened Wrappers
  import opened Documents
  import opened Schemas

  type Flags = map<string, bool>
  datatype Served = Served(commit: string, config: Config, flags: Flags)
  /** The cache file as parsed; a field the file lacks, or of another type, is absent. */
  datatype CacheFile = CacheFile(service: string, environment: string, commit: Option<string>,
                                 config: Option<Config>, flags: Option<Flags>)
  /** One fetch: a 200, another status, or no usable answer. */
  datatype Fetched = Got(served: Served, stored: bool) | NothingNew | Broken

  /** What a running service sees. */
  datatype View = View(defaults: Config, resolved: Config, flags: Flags, commit: Option<string>)

  function ReadCache(file: Option<CacheFile>, service: string, environment: string): Option<Served> {
    if file.None? || file.value.service != service || file.value.environment != environment
       || file.value.commit.None? || file.value.config.None?
    then None
    else Some(Served(file.value.commit.value, file.value.config.value, file.value.flags.GetOr(map[])))
  }

  function CacheOf(service: string, environment: string, served: Served): CacheFile {
    CacheFile(service, environment, Some(served.commit), Some(served.config), Some(served.flags))
  }

  /** A cache file is used exactly if it is this service's own and has a commit and values; flags may be missing. */
  lemma CacheIsUsedIff(file: CacheFile, service: string, environment: string)
    ensures ReadCache(None, service, environment).None?
    ensures ReadCache(Some(file), service, environment).Some? <==>
            file.service == service && file.environment == environment && file.commit.Some? && file.config.Some?
    ensures ReadCache(Some(file), service, environment).Some? ==>
              var served := ReadCache(Some(file), service, environment).value;
              && Some(served.commit) == file.commit && Some(served.config) == file.config
              && served.flags == if file.flags.Some? then file.flags.value else map[]
  {
  }

  /** Another service's file, shared through a copied path, is never used; one's own comes back whole. */
  lemma CacheRoundTrip(service: string, environment: string, otherService: string, otherEnvironment: string, served: Served)
    ensures ReadCache(Some(CacheOf(service, environment, served)), otherService, otherEnvironment)
            == if service == otherService && environment == otherEnvironment then Some(served) else None
  {
  }

  function Applied(v: View, served: Served): View {
    v.(resolved := v.defaults + served.config, flags := served.flags, commit := Some(served.commit))
  }

  function Loaded(v: View, defaults: Config, cached: Option<Served>): View {
    if cached.Some? then View(defaults, defaults + cached.value.config, cached.value.flags, Some(cached.value.commit))
    else v.(defaults := defaults, resolved := defaults)
  }

  const FRESH := View(map[], map[], map[], None)

  /** Values, flags and commit are those of `from`, or of the defaults alone. */
  predicate SeenAs(v: View, from: Option<Served>) {
    && v.commit == (if from.Some? then Some(from.value.commit) else None)
    && v.flags == (if from.Some? then from.value.flags else map[])
    && v.resolved == (if from.Some? then v.defaults + from.value.config else v.defaults)
  }

  class ConfigClient {
    const service: string
    const environment: string
    var defaults: Config
    var resolved: Config
    var flags: Flags
    var currentCommit: Option<string>
    var file: Option<CacheFile>
    /** How often the registered handlers have run. */
    var notified: nat

    constructor (service: string, environment: string, file: Option<CacheFile>)
      ensures this.service == service && this.environment == environment && this.file == file
      ensures State() == FRESH && notified == 0
    {
      this.service := service;
      this.environment := environment;
      this.file := file;
      defaults := map[];
      resolved := map[];
      flags := map[];
      currentCommit := None;
      notified := 0;
    }

    function State(): View
      reads this
    {
      View(defaults, resolved, flags, currentCommit)
    }

    /** The local half of `load`: defaults, then the cache file if it is this service's own. */
    method Load(with: Config)
      modifies this`defaults, this`resolved, this`flags, this`currentCommit
      ensures State() == Loaded(old(State()), with, ReadCache(file, service, environment))
    {
      defaults := with;
      resolved := with;
      var cached := ReadCache(file, service, environment);
      if cached.Some? {
        resolved := defaults + cached.value.config;
        flags := cached.value.flags;
        currentCommit := Some(cached.value.commit);
      }
    }

    /** Takes an answer over whole, keeps it for the next start, and tells the handlers if the commit is new. */
    method Apply(served: Served, stored: bool)
      modifies this
      ensures State() == Applied(old(State()), served)
      ensures file == if stored then Some(CacheOf(service, environment, served)) else old(file)
      ensures notified == old(notified) + if Some(served.commit) != old(currentCommit) then 1 else 0
    {
      resolved := defaults + served.config;
      flags := served.flags;
      var changed := Some(served.commit) != currentCommit;
      currentCommit := Some(served.commit);
      if stored {
        file := Some(CacheOf(service, environment, served));
      }
      if changed {
        notified := notified + 1;
      }
    }

    /** Anything but a 200 leaves the values in hand; the result says whether the commit moved. */
    method Refresh(answer: Fetched) returns (changed: bool)
      modifies this
      ensures !answer.Got? ==> !changed && State() == old(State()) && file == old(file) && notified == old(notified)
      ensures answer.Got? ==> State() == Applied(old(State()), answer.served)
                              && changed == (currentCommit != old(currentCommit))
                              && file == (if answer.stored then Some(CacheOf(service, environment, answer.served)) else old(file))
                              && notified == old(notified) + if changed then 1 else 0
    {
      if !answer.Got? {
        return false;
      }
      changed := Some(answer.served.commit) != currentCommit;
      Apply(answer.served, answer.stored);
    }

    /** The watch loop over the answers its fetches get, until it is stopped. */
    method Watch(answers: seq<Fetched>)
      modifies this
      ensures State() == AfterAll(old(State()), answers)
      ensures file == FileAfter(old(file), service, environment, answers)
    {
      for i := 0 to |answers|
        invariant State() == AfterAll(old(State()), answers[..i])
        invariant file == FileAfter(old(file), service, environment, answers[..i])
      {
        assert answers[..i + 1][..i] == answers[..i];
        if answers[i].Got? {
          Apply(answers[i].served, answers[i].stored);
        }
      }
      assert answers[..|answers|] == answers;
    }
  }

  function AfterAll(v: View, answers: seq<Fetched>): View {
    if answers == [] then v
    else
      var init, last := AfterAll(v, answers[..|answers| - 1]), answers[|answers| - 1];
      if last.Got? then Applied(init, last.served) else init
  }

  /** The cache file a run of fetches leaves: that of the last answer whose write succeeded. */
  function FileAfter(file: Option<CacheFile>, service: string, environment: string, answers: seq<Fetched>): Option<CacheFile> {
    if answers == [] then file
    else
      var last := answers[|answers| - 1];
      if last.Got? && last.stored then Some(CacheOf(service, environment, last.served))
      else FileAfter(file, service, environment, answers[..|answers| - 1])
  }

  /** The answer a run of fetches leaves in force. */
  function LastServed(from: Option<Served>, answers: seq<Fetched>): Option<Served> {
    if answers == [] then from
    else if answers[|answers| - 1].Got? then Some(answers[|answers| - 1].served)
    else LastServed(from, answers[..|answers| - 1])
  }

  /**
   * After its one load, and whatever answers follow, a client's values, flags and commit all come from
   * one answer: the last one, or the cache file, or the defaults alone.
   */
  lemma {:induction false} OneAnswerAtATime(defaults: Config, cached: Option<Served>, answers: seq<Fetched>)
    ensures
      var v := AfterAll(Loaded(FRESH, defaults, cached), answers);
      v.defaults == defaults && SeenAs(v, LastServed(cached, answers))
  {
    if answers != [] {
      OneAnswerAtATime(defaults, cached, answers[..|answers| - 1]);
    }
  }

  /**
   * A later load goes back to the defaults but keeps the old commit and flags when there is no cache
   * file: the three still belong together if and only if there is one, or no answer had come, or that
   * answer overrode none of the new defaults.
   */
  lemma SecondLoadKeepsIff(v: View, from: Option<Served>, defaults: Config, cached: Option<Served>)
    requires SeenAs(v, from)
    ensures SeenAs(Loaded(v, defaults, cached), if cached.Some? then cached else from)
            <==> cached.Some? || from.None? || defaults + from.value.config == defaults
  {
  }

  /** Loading twice, with no cache file, after an answer that overrode a default: old commit, default value. */
  lemma SecondLoadMixes()
    ensures
      var defaults: Config := map["k" := Bool(false)];
      var served := Served("c1", map["k" := Bool(true)], map[]);
      var v := Loaded(Applied(Loaded(FRESH, defaults, None), served), defaults, None);
      && v.commit == Some("c1") && v.resolved == defaults && !SeenAs(v, Some(served))
  {
    var defaults: Config := map["k" := Bool(false)];
    var served := Served("c1", map["k" := Bool(true)], map[]);
    var v := Loaded(Applied(Loaded(FRESH, defaults, None), served), defaults, None);
    SecondLoadKeepsIff(Applied(Loaded(FRESH, defaults, None), served), Some(served), defaults, None);
    assert (defaults + served.config)["k"] != defaults["k"];
  }
}
