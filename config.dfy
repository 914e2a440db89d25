/**
 * Configuration read from the process environment: every getter returns
 * the variable's value when it is set and parses, and its default otherwise.
 * `ParseConfigFromEnv` always succeeds.
 */
module Config {
  import opened Wrappers
  import opened Times

  type Env = map<string, string>

  /** A `time.Duration`: nanoseconds. */
  type Duration = int

  datatype DBConfig = DBConfig(
    host: string,
    port: string,
    username: string,
    password: string,
    dbName: string,
    reconnRetry: int,
    timeWaitPerTry: Duration)

  datatype ServerConfig = ServerConfig(host: string, port: string)

  datatype WorkerConfig = WorkerConfig(runTime: TimeOfDay, runFetchingOnStart: bool, apiURL: string)

  datatype Config = Config(
    databaseConfig: DBConfig,
    serverConfig: ServerConfig,
    workerConfig: WorkerConfig,
    nasaApiKey: string)

  /**
   * The parsers of the standard library whose grammars this model leaves
   * open: `strconv.Atoi` and `time.ParseDuration`, each as "the text parses
   * to this value" or "it does not parse".
   */
  datatype Parsers = Parsers(atoi: string -> Option<int>, parseDuration: string -> Option<Duration>)

  /** The rule all typed getters share: the parsed value of a set variable, else the default. */
  function Fallback<T>(env: Env, name: string, parse: string -> Option<T>, default: T): (v: T)
    ensures name in env && parse(env[name]).Some? ==> v == parse(env[name]).value
    ensures !(name in env && parse(env[name]).Some?) ==> v == default
  {
    if name in env then
      match parse(env[name])
      case Some(value) => value
      case None => default
    else default
  }

  function GetEnvOrDefault(env: Env, key: string, default: string): (v: string)
    ensures key in env ==> v == env[key]
    ensures key !in env ==> v == default
  {
    if key in env then env[key] else default
  }

  /** `os.Getenv`: the empty string for an unset variable. */
  function Getenv(env: Env, key: string): (v: string)
    ensures key in env ==> v == env[key]
    ensures key !in env ==> v == ""
  {
    GetEnvOrDefault(env, key, "")
  }

  function GetEnvAsInt(env: Env, name: string, default: int, parsers: Parsers): (v: int)
    ensures v == default || (name in env && parsers.atoi(env[name]) == Some(v))
    ensures name in env && parsers.atoi(env[name]).Some? ==> v == parsers.atoi(env[name]).value
    ensures name in env && parsers.atoi(env[name]).None? ==> v == default
    ensures name !in env ==> v == default
  {
    Fallback(env, name, parsers.atoi, default)
  }

  /** `strconv.ParseBool`: the only spellings it accepts. */
  function ParseBool(s: string): (r: Option<bool>)
    ensures r == Some(true) <==> s in {"1", "t", "T", "TRUE", "true", "True"}
    ensures r == Some(false) <==> s in {"0", "f", "F", "FALSE", "false", "False"}
  {
    if s in {"1", "t", "T", "TRUE", "true", "True"} then Some(true)
    else if s in {"0", "f", "F", "FALSE", "false", "False"} then Some(false)
    else None
  }

  function GetEnvAsBool(env: Env, name: string, default: bool): (v: bool)
    ensures v == default || (name in env && ParseBool(env[name]) == Some(v))
    ensures name in env && ParseBool(env[name]).Some? ==> v == ParseBool(env[name]).value
    ensures name in env && ParseBool(env[name]).None? ==> v == default
    ensures name !in env ==> v == default
  {
    Fallback(env, name, ParseBool, default)
  }

  /** The zero `time.Time` reads as midnight. */
  const ZeroTime: TimeOfDay := TimeOfDay(0, 0)

  /** The "15:04" value of the variable, else the default parsed with "15:04", else the zero time. */
  function GetEnvAsTime(env: Env, name: string, default: string): (t: TimeOfDay)
    ensures name in env && ParseTimeOfDay(env[name]).Some? ==> t == ParseTimeOfDay(env[name]).value
    ensures !(name in env && ParseTimeOfDay(env[name]).Some?) && ParseTimeOfDay(default).Some? ==>
              t == ParseTimeOfDay(default).value
    ensures !(name in env && ParseTimeOfDay(env[name]).Some?) && ParseTimeOfDay(default).None? ==>
              t == ZeroTime
  {
    var fallback := match ParseTimeOfDay(default)
                    case Some(t) => t
                    case None => ZeroTime;
    Fallback(env, name, ParseTimeOfDay, fallback)
  }

  function GetEnvAsDuration(env: Env, name: string, default: Duration, parsers: Parsers): (v: Duration)
    ensures v == default || (name in env && parsers.parseDuration(env[name]) == Some(v))
    ensures name in env && parsers.parseDuration(env[name]).Some? ==> v == parsers.parseDuration(env[name]).value
    ensures name in env && parsers.parseDuration(env[name]).None? ==> v == default
    ensures name !in env ==> v == default
  {
    Fallback(env, name, parsers.parseDuration, default)
  }

  const Second: Duration := 1_000_000_000

  const DefaultApiURLPrefix: string := "https://api.nasa.gov/planetary/apod?api_key="

  /** The value of a string variable: its text when set, even to "", else the default. */
  ghost predicate StringField(env: Env, name: string, default: string, v: string) {
    && (name in env ==> v == env[name])
    && (name !in env ==> v == default)
  }

  /** The value of a typed variable: what `parse` reads from it when set and parseable, else the default. */
  ghost predicate TypedField<T>(env: Env, name: string, parse: string -> Option<T>, default: T, v: T) {
    && (name in env && parse(env[name]).Some? ==> v == parse(env[name]).value)
    && (!(name in env && parse(env[name]).Some?) ==> v == default)
  }

  /**
   * Every field comes from its own variable, whatever else is set: the
   * variable's value when it is set (and parses, for the typed fields), else
   * the field's default. The API URL defaults to the prefix followed by the key.
   */
  function ParseConfigFromEnv(env: Env, parsers: Parsers): (c: Config)
    ensures StringField(env, "DB_HOST", "localhost", c.databaseConfig.host)
    ensures StringField(env, "DB_PORT", "5432", c.databaseConfig.port)
    ensures StringField(env, "DB_USERNAME", "user", c.databaseConfig.username)
    ensures StringField(env, "DB_PASSWORD", "password", c.databaseConfig.password)
    ensures StringField(env, "DB_NAME", "database", c.databaseConfig.dbName)
    ensures TypedField(env, "DB_RECONN_RETRY", parsers.atoi, 3, c.databaseConfig.reconnRetry)
    ensures TypedField(env, "DB_TIME_WAIT_PER_TRY", parsers.parseDuration, 5 * Second, c.databaseConfig.timeWaitPerTry)
    ensures StringField(env, "SERVER_HOST", "0.0.0.0", c.serverConfig.host)
    ensures StringField(env, "SERVER_PORT", "8080", c.serverConfig.port)
    ensures StringField(env, "NASA_API_KEY", "", c.nasaApiKey)
    ensures TypedField(env, "WORKER_RUN_TIME", ParseTimeOfDay, TimeOfDay(3, 0), c.workerConfig.runTime)
    ensures TypedField(env, "RUN_FETCHING_ON_START", ParseBool, true, c.workerConfig.runFetchingOnStart)
    ensures StringField(env, "NASA_API_URL", DefaultApiURLPrefix + c.nasaApiKey, c.workerConfig.apiURL)
  {
    DefaultRunTime();
    var dbConfig := DBConfig(
      GetEnvOrDefault(env, "DB_HOST", "localhost"),
      GetEnvOrDefault(env, "DB_PORT", "5432"),
      GetEnvOrDefault(env, "DB_USERNAME", "user"),
      GetEnvOrDefault(env, "DB_PASSWORD", "password"),
      GetEnvOrDefault(env, "DB_NAME", "database"),
      GetEnvAsInt(env, "DB_RECONN_RETRY", 3, parsers),
      GetEnvAsDuration(env, "DB_TIME_WAIT_PER_TRY", 5 * Second, parsers));
    var serverConfig := ServerConfig(
      GetEnvOrDefault(env, "SERVER_HOST", "0.0.0.0"),
      GetEnvOrDefault(env, "SERVER_PORT", "8080"));
    var nasaApiKey := Getenv(env, "NASA_API_KEY");
    var workerConfig := WorkerConfig(
      GetEnvAsTime(env, "WORKER_RUN_TIME", "03:00"),
      GetEnvAsBool(env, "RUN_FETCHING_ON_START", true),
      GetEnvOrDefault(env, "NASA_API_URL", DefaultApiURLPrefix + Getenv(env, "NASA_API_KEY")));
    Config(dbConfig, serverConfig, workerConfig, nasaApiKey)
  }

  /** The default run time "03:00" reads as 03:00. */
  lemma DefaultRunTime()
    ensures ParseTimeOfDay("03:00") == Some(TimeOfDay(3, 0))
  {
    FormatThenParseTimeOfDay(TimeOfDay(3, 0));
    assert FormatTimeOfDay(TimeOfDay(3, 0)) == "03:00";
  }

  /** With nothing set, every field takes its documented default and the API key is empty. */
  lemma DefaultsOfEmptyEnvironment(parsers: Parsers)
    ensures ParseConfigFromEnv(map[], parsers) == Config(
              DBConfig("localhost", "5432", "user", "password", "database", 3, 5 * Second),
              ServerConfig("0.0.0.0", "8080"),
              WorkerConfig(TimeOfDay(3, 0), true, DefaultApiURLPrefix),
              "")
  {
    DefaultRunTime();
    assert DefaultApiURLPrefix + "" == DefaultApiURLPrefix;
  }

  /** A set variable that does not parse is as good as an unset one. */
  lemma UnparsableFallsBack(env: Env, parsers: Parsers)
    requires "DB_RECONN_RETRY" in env && parsers.atoi(env["DB_RECONN_RETRY"]).None?
    requires "DB_TIME_WAIT_PER_TRY" in env && parsers.parseDuration(env["DB_TIME_WAIT_PER_TRY"]).None?
    requires "RUN_FETCHING_ON_START" in env && ParseBool(env["RUN_FETCHING_ON_START"]).None?
    requires "WORKER_RUN_TIME" in env && ParseTimeOfDay(env["WORKER_RUN_TIME"]).None?
    ensures var c := ParseConfigFromEnv(env, parsers);
            && c.databaseConfig.reconnRetry == 3
            && c.databaseConfig.timeWaitPerTry == 5 * Second
            && c.workerConfig.runFetchingOnStart
            && c.workerConfig.runTime == TimeOfDay(3, 0)
  {
    DefaultRunTime();
  }

  /** A string variable that is set, even to the empty string, is taken as it is. */
  lemma SetButEmptyIsKept(env: Env, parsers: Parsers)
    requires "DB_HOST" in env && env["DB_HOST"] == ""
    ensures ParseConfigFromEnv(env, parsers).databaseConfig.host == ""
  {
  }
}
