/**
 * The versioned configuration and how it is loaded: from a file, from a
 * string, or (when no file can be read) from the built-in defaults, each
 * followed by the default-team injection.
 */
module Configuration {
  import opened Wrappers
  import opened V1

  datatype Config = V1(v1: ConfigV1)

  /** Why a load failed: the file could not be read, or its YAML not parsed. */
  datatype LoadError = ReadFailed | ParseFailed

  function DefaultConfig(): (c: Config)
    ensures c.v1 == NewConfigV1() && c.v1.teams == []
  {
    V1(NewConfigV1())
  }

  /** `Config::new` is the default configuration. */
  function New(): (c: Config)
    ensures c == DefaultConfig()
  {
    DefaultConfig()
  }

  /**
   * An empty team list receives the one default team; a non-empty list is
   * left as it is; nothing else in the configuration changes.
   */
  function LoadDefaults(c: Config): (d: Config)
    ensures |c.v1.teams| > 0 ==> d == c
    ensures |c.v1.teams| == 0 ==> d.v1.teams == [DefaultTeam()]
    ensures d.v1 == c.v1.(teams := d.v1.teams)
    ensures |d.v1.teams| > 0
  {
    var cfg := c.v1;
    if |cfg.teams| == 0 then
      V1(cfg.(teams := cfg.teams + [DefaultTeam().(name := DefaultTeamName, default := Some(true))]))
    else c
  }

  /** Injecting the defaults twice is the same as once. */
  lemma {:induction false} LoadDefaultsIdempotent(c: Config)
    ensures LoadDefaults(LoadDefaults(c)) == LoadDefaults(c)
  {
    assert |LoadDefaults(c).v1.teams| > 0;
  }

  /** After the injection a default team exists whenever the list had been empty. */
  lemma {:induction false} InjectedTeamIsDefault(c: Config, repository: string)
    requires c.v1.teams == []
    ensures FindDefaultTeam(LoadDefaults(c).v1) == Some(DefaultTeam())
    ensures FindTeamByRepository(LoadDefaults(c).v1, repository) == Ok(DefaultTeam())
  {
    var d := LoadDefaults(c).v1;
    assert d.teams == [DefaultTeam()];
    DefaultFallback(d, repository, 0);
  }

  /**
   * The injection does not protect a configuration whose teams are all
   * neither the default nor listing the repository: the lookup still panics.
   */
  lemma {:induction false} NonEmptyWithoutDefaultPanics(repository: string)
    ensures var c := V1(NewConfigV1().(teams := [NewTeam("octo-reviewers")]));
            LoadDefaults(c) == c &&
            FindTeamByRepository(LoadDefaults(c).v1, repository) == Err(UnwrapOnNone)
  {
    var c := V1(NewConfigV1().(teams := [NewTeam("octo-reviewers")]));
    assert forall i :: 0 <= i < |c.v1.teams| ==> c.v1.teams[i] == NewTeam("octo-reviewers");
  }

  /** `load_str`: every successful parse is followed by the default-team injection. */
  function LoadStr(data: string, parse: string -> Result<Config, LoadError>): (r: Result<Config, LoadError>)
    ensures r.Err? <==> parse(data).Err?
    ensures r.Err? ==> r.error == parse(data).error
    ensures r.Ok? ==> r.value == LoadDefaults(parse(data).value) && |r.value.v1.teams| > 0
  {
    match parse(data)
    case Err(e) => Err(e)
    case Ok(c) => Ok(LoadDefaults(c))
  }

  /** `load`: read the file, then load its text; a failed read is the error. */
  function Load(path: string, read: string -> Option<string>, parse: string -> Result<Config, LoadError>)
    : (r: Result<Config, LoadError>)
    ensures read(path).None? ==> r == Err(ReadFailed)
    ensures read(path).Some? ==> r == LoadStr(read(path).value, parse)
    ensures r.Ok? ==> |r.value.v1.teams| > 0
  {
    match read(path)
    case None => Err(ReadFailed)
    case Some(data) => LoadStr(data, parse)
  }

  /** `load_arguments`: the arguments are ignored; the default configuration with its default team. */
  function LoadArguments<A>(arguments: A): (c: Config)
    ensures c == LoadDefaults(DefaultConfig())
    ensures c.v1.teams == [DefaultTeam()]
  {
    var config := DefaultConfig();
    LoadDefaults(config)
  }

  /** A configuration built from the arguments routes every repository to "ghas-reviewers". */
  lemma {:induction false} ArgumentsRouteToDefaultTeam<A>(arguments: A, repository: string)
    ensures FindTeamByRepository(LoadArguments(arguments).v1, repository) == Ok(DefaultTeam())
    ensures FindTeamByRepository(LoadArguments(arguments).v1, repository).value.name == "ghas-reviewers"
  {
    InjectedTeamIsDefault(DefaultConfig(), repository);
  }
}
