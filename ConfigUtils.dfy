/**
 * `util.ConfigUtils`: resolves a configuration name by precedence —
 * environment variable, then system property, then the classpath file
 * `application.properties`, then the caller's default. The file is loaded
 * lazily into the static `props`; a failed load clears the static
 * `useProps` for good. The environment, the system properties and what a
 * load would read are parameters of each lookup. An empty name that is not
 * an environment variable makes `System.getProperty` throw
 * `IllegalArgumentException`, so a lookup answers with a `Result`.
 */
module Config {
  import opened Values

  const MissingResourceMessage := "Unable to find application.properties in classpath"

  /** What `loadProperties` would read if it ran now. */
  datatype LoadResult =
    | Loaded(entries: map<string, string>)       // the file was found and read
    | ResourceMissing                            // `getResourceAsStream` gave `null`
    | ReadFailed(partial: map<string, string>)   // `IOException` after `partial` was read

  /** The configuration names that have an entry in the file. */
  const ConfigNames: set<string> :=
    {"DB_USER", "DB_PASSWORD", "DB_VENDOR", "DB_HOST", "DB_PORT", "BASE_URL", "BASE_API_PATH", "API_RESPONSE_TIME"}

  /** The `switch` of `getProperty`: the file key a configuration name reads, if any. */
  function FileKey(name: string): (key: Option<string>)
    ensures key.Some? <==> name in ConfigNames
  {
    if name == "DB_USER" then Some("db.username")
    else if name == "DB_PASSWORD" then Some("db.password")
    else if name == "DB_VENDOR" then Some("db.vendor")
    else if name == "DB_HOST" then Some("db.host")
    else if name == "DB_PORT" then Some("db.port")
    else if name == "BASE_URL" then Some("base.url")
    else if name == "BASE_API_PATH" then Some("base.api.path")
    else if name == "API_RESPONSE_TIME" then Some("base.response.time.ms")
    else None
  }

  /** `getProperty`: the file entry under the name's file key, or the default. */
  function GetProperty(props: map<string, string>, keyName: string, defaultValue: string): (value: string)
    ensures value != defaultValue ==> FileKey(keyName).Some? && FileKey(keyName).value in props
                                      && props[FileKey(keyName).value] == value
    ensures FileKey(keyName).Some? && FileKey(keyName).value in props ==> value == props[FileKey(keyName).value]
    ensures FileKey(keyName).None? ==> value == defaultValue
  {
    match FileKey(keyName)
    case None => defaultValue
    case Some(key) => if key in props then props[key] else defaultValue
  }

  /** The static state: `props` and `useProps`. */
  datatype ConfigState = ConfigState(props: map<string, string>, useProps: bool)

  const Initial := ConfigState(map[], true)

  /** The guard of the load: `useProps` still set and `props` still empty. */
  predicate LoadsOn(st: ConfigState)
  {
    st.useProps && |st.props| == 0
  }

  /** `props.load` adds what it read, before or without an exception. */
  function AfterLoad(st: ConfigState, resource: LoadResult): (st': ConfigState)
    ensures st.props.Keys <= st'.props.Keys
    ensures st'.useProps <==> st.useProps && resource.Loaded?
    ensures resource.Loaded? ==> forall k :: k in resource.entries ==> k in st'.props && st'.props[k] == resource.entries[k]
  {
    match resource
    case Loaded(entries) => st.(props := st.props + entries)
    case ResourceMissing => st.(useProps := false)
    case ReadFailed(partial) => ConfigState(st.props + partial, false)
  }

  /** `getFromProps`: the new state and the value. */
  function FromProps(st: ConfigState, keyName: string, defaultValue: string, resource: LoadResult): (r: (ConfigState, string))
    ensures !st.useProps ==> r == (st, defaultValue)
    ensures st.props.Keys <= r.0.props.Keys
    ensures r.0.useProps ==> st.useProps
    ensures r.1 == defaultValue || r.1 in r.0.props.Values
  {
    if !st.useProps then (st, defaultValue)
    else
      var st' := if LoadsOn(st) then AfterLoad(st, resource) else st;
      (st', GetProperty(st'.props, keyName, defaultValue))
  }

  /** One `getValue` call with what `System.getenv` and `System.getProperty` return for its name. */
  datatype Lookup = Lookup(name: string, defaultValue: string, envValue: Option<string>, sysValue: Option<string>,
                           resource: LoadResult)

  /** What `System.getProperty("")` throws: "key can't be empty". */
  const EmptyKeyFailure := IllegalArgument(EmptyKey)

  /** `getValue`: the new state, and the value or the exception thrown. */
  function Resolve(st: ConfigState, q: Lookup): (r: (ConfigState, Result<string, Exception>))
    ensures r.0 != st ==> AttemptsLoad(st, q)
    ensures r.0.useProps ==> st.useProps
    ensures st.props.Keys <= r.0.props.Keys
    ensures r.1.Err? <==> q.envValue.None? && q.name == ""
    ensures r.1.Err? ==> r.1.error == EmptyKeyFailure && r.0 == st
  {
    if q.envValue.Some? then (st, Ok(q.envValue.value))
    else if q.name == "" then (st, Err(EmptyKeyFailure))
    else if q.sysValue.Some? then (st, Ok(q.sysValue.value))
    else
      var (st', value) := FromProps(st, q.name, q.defaultValue, q.resource);
      (st', Ok(value))
  }

  /** Whether the lookup gets past `getenv` and `getProperty` to the file. */
  predicate ReachesFile(q: Lookup)
  {
    q.envValue.None? && q.name != "" && q.sysValue.None?
  }

  /** Whether the lookup runs `loadProperties`. */
  predicate AttemptsLoad(st: ConfigState, q: Lookup)
  {
    ReachesFile(q) && LoadsOn(st)
  }

  /**
   * A series of lookups from state `st`: the final state and what each
   * lookup returned or threw. Over the whole series `useProps` is never set
   * again and no file entry is removed.
   */
  function Run(st: ConfigState, qs: seq<Lookup>): (r: (ConfigState, seq<Result<string, Exception>>))
    ensures |r.1| == |qs|
    ensures r.0.useProps ==> st.useProps
    ensures st.props.Keys <= r.0.props.Keys
    decreases |qs|
  {
    if |qs| == 0 then (st, [])
    else
      var first := Resolve(st, qs[0]);
      var rest := Run(first.0, qs[1..]);
      (rest.0, [first.1] + rest.1)
  }

  /** How many lookups of the series run `loadProperties`. */
  function LoadCount(st: ConfigState, qs: seq<Lookup>): nat
    decreases |qs|
  {
    if |qs| == 0 then 0
    else (if AttemptsLoad(st, qs[0]) then 1 else 0) + LoadCount(Resolve(st, qs[0]).0, qs[1..])
  }

  /** What a lookup returns from a state in which no load happens. */
  function Answer(st: ConfigState, q: Lookup): Result<string, Exception>
  {
    if q.envValue.Some? then Ok(q.envValue.value)
    else if q.name == "" then Err(EmptyKeyFailure)
    else if q.sysValue.Some? then Ok(q.sysValue.value)
    else if st.useProps then Ok(GetProperty(st.props, q.name, q.defaultValue))
    else Ok(q.defaultValue)
  }

  class ConfigUtils {
    var props: map<string, string>
    var useProps: bool

    function State(): ConfigState
      reads this
    {
      ConfigState(props, useProps)
    }

    constructor ()
      ensures State() == Initial
    {
      props := map[];
      useProps := true;
    }

    /** `loadProperties`: reads the file into `props`, or throws. */
    method LoadProperties(resource: LoadResult) returns (outcome: Outcome)
      modifies this`props
      ensures outcome == Normal <==> resource.Loaded?
      ensures resource.ResourceMissing? ==> outcome == Threw(Runtime(MissingResourceMessage))
      ensures resource.ReadFailed? ==> outcome == Threw(IO)
      ensures props == AfterLoad(old(State()), resource).props
    {
      match resource
      case ResourceMissing =>
        outcome := Threw(Runtime(MissingResourceMessage));
      case Loaded(entries) =>
        props := props + entries;
        outcome := Normal;
      case ReadFailed(partial) =>
        props := props + partial;
        outcome := Threw(IO);
    }

    /** `getFromProps` */
    method GetFromProps(keyName: string, defaultValue: string, resource: LoadResult) returns (value: string)
      modifies this
      ensures (State(), value) == FromProps(old(State()), keyName, defaultValue, resource)
    {
      if !useProps {
        return defaultValue;
      }
      if useProps {
        if |props| == 0 {
          var outcome := LoadProperties(resource);
          if outcome.Threw? {
            useProps := false;
          }
        }
      }
      value := GetProperty(props, keyName, defaultValue);
    }

    /** `getValue`: the value, or the exception `System.getProperty` throws for an empty name. */
    method GetValue(envVar: string, defaultValue: string, envValue: Option<string>, sysValue: Option<string>,
                    resource: LoadResult) returns (value: Result<string, Exception>)
      modifies this
      ensures (State(), value) == Resolve(old(State()), Lookup(envVar, defaultValue, envValue, sysValue, resource))
    {
      if envValue.Some? {
        return Ok(envValue.value);
      }
      if envVar == "" {
        return Err(EmptyKeyFailure);
      }
      if sysValue.Some? {
        return Ok(sysValue.value);
      }
      var fromProps := GetFromProps(envVar, defaultValue, resource);
      value := Ok(fromProps);
    }
  }

  // ---------------------------------------------------------------------
  // Properties

  /** Distinct configuration names never read the same file key. */
  lemma FileKeyInjective(a: string, b: string)
    requires FileKey(a).Some? && FileKey(a) == FileKey(b)
    ensures a == b
  {
  }

  /**
   * The precedence of one lookup: a present environment variable is
   * returned; else an empty name throws; else a present system property is
   * returned; a name outside the eight listed ones gets the default even
   * from a loaded file.
   */
  lemma ResolvePrecedence(st: ConfigState, q: Lookup)
    ensures q.envValue.Some? ==> Resolve(st, q) == (st, Ok(q.envValue.value))
    ensures q.envValue.None? && q.name == "" ==> Resolve(st, q) == (st, Err(EmptyKeyFailure))
    ensures q.envValue.None? && q.name != "" && q.sysValue.Some? ==> Resolve(st, q) == (st, Ok(q.sysValue.value))
    ensures ReachesFile(q) && FileKey(q.name).None? ==> Resolve(st, q).1 == Ok(q.defaultValue)
  {
  }

  /** A file holding `base.url` answers `BASE_URL` on the first lookup, and the entry stays loaded. */
  lemma BaseUrlFromFile(url: string, defaultValue: string)
    ensures Resolve(Initial, Lookup("BASE_URL", defaultValue, None, None, Loaded(map["base.url" := url])))
            == (ConfigState(map["base.url" := url], true), Ok(url))
  {
    assert map[] + map["base.url" := url] == map["base.url" := url];
  }

  /** The first lookup that reaches the file loads it and reads its entry. */
  lemma FirstLookupLoadsFile(q: Lookup, entries: map<string, string>)
    requires ReachesFile(q) && q.resource == Loaded(entries)
    ensures AttemptsLoad(Initial, q)
    ensures Resolve(Initial, q) == (ConfigState(entries, true), Ok(GetProperty(entries, q.name, q.defaultValue)))
  {
    assert map[] + entries == entries;
  }

  /**
   * Once no load is pending (a failed load, or a load that filled `props`),
   * the state never changes again, no load runs, and every lookup answers
   * from that state.
   */
  lemma {:induction false} SettledStateIsStable(st: ConfigState, qs: seq<Lookup>)
    requires !LoadsOn(st)
    ensures Run(st, qs).0 == st
    ensures LoadCount(st, qs) == 0
    ensures forall i :: 0 <= i < |qs| ==> Run(st, qs).1[i] == Answer(st, qs[i])
  {
    if |qs| > 0 {
      assert Resolve(st, qs[0]) == (st, Answer(st, qs[0]));
      SettledStateIsStable(st, qs[1..]);
      forall i | 0 <= i < |qs| ensures Run(st, qs).1[i] == Answer(st, qs[i]) {
        if i > 0 {
          assert qs[1..][i - 1] == qs[i];
        }
      }
    }
  }

  /** After a failed load, every lookup is answered without the file. */
  lemma FailedLoadIsPermanent(st: ConfigState, qs: seq<Lookup>)
    requires !st.useProps
    ensures Run(st, qs).0 == st && LoadCount(st, qs) == 0
    ensures forall i :: 0 <= i < |qs| && ReachesFile(qs[i]) ==> Run(st, qs).1[i] == Ok(qs[i].defaultValue)
  {
    SettledStateIsStable(st, qs);
  }

  /** A failed load, missing or unreadable, clears `useProps`. */
  lemma FailedLoadClearsUseProps(st: ConfigState, q: Lookup)
    requires AttemptsLoad(st, q) && !q.resource.Loaded?
    ensures !Resolve(st, q).0.useProps
  {
  }

  /** Unless the file is found and empty, the file is loaded at most once. */
  lemma {:induction false} AtMostOneLoad(st: ConfigState, qs: seq<Lookup>)
    requires forall i :: 0 <= i < |qs| ==> qs[i].resource != Loaded(map[])
    ensures LoadCount(st, qs) <= 1
  {
    if |qs| > 0 {
      var next := Resolve(st, qs[0]).0;
      if AttemptsLoad(st, qs[0]) {
        match qs[0].resource
        case Loaded(entries) =>
          assert entries != map[];
          assert next.props == st.props + entries;
          assert entries.Keys <= next.props.Keys;
          assert |next.props| > 0 by {
            var k :| k in entries;
            assert k in next.props;
          }
          SettledStateIsStable(next, qs[1..]);
        case ResourceMissing =>
          SettledStateIsStable(next, qs[1..]);
        case ReadFailed(_) =>
          SettledStateIsStable(next, qs[1..]);
      } else {
        assert next == st;
        AtMostOneLoad(st, qs[1..]);
      }
    }
  }

  /**
   * A found but empty file leaves `props` empty, so every lookup that
   * reaches the file loads it again and gets its default.
   */
  lemma {:induction false} EmptyFileReloadsEveryTime(qs: seq<Lookup>)
    requires forall i :: 0 <= i < |qs| ==> ReachesFile(qs[i]) && qs[i].resource == Loaded(map[])
    ensures Run(Initial, qs).0 == Initial
    ensures LoadCount(Initial, qs) == |qs|
    ensures forall i :: 0 <= i < |qs| ==> Run(Initial, qs).1[i] == Ok(qs[i].defaultValue)
  {
    if |qs| > 0 {
      assert Initial.props + map[] == Initial.props;
      assert Resolve(Initial, qs[0]) == (Initial, Ok(qs[0].defaultValue));
      EmptyFileReloadsEveryTime(qs[1..]);
      forall i | 0 <= i < |qs| ensures Run(Initial, qs).1[i] == Ok(qs[i].defaultValue) {
        if i > 0 {
          assert qs[1..][i - 1] == qs[i];
        }
      }
    }
  }
}
