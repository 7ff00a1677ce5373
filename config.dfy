/** Configuration loading of apps/control-plane/internal/config/config.go.

    The process environment is a map. `godotenv.Load(".env")` is code
    outside this model; its outcome is a parameter: None when loading the
    file failed (the source only logs that), or Some(env) with the process
    environment as it stands after the load. */
module Config {
  import opened Wrappers

  type Env = map<string, string>

  datatype Config = Config(port: string, env: string)

  /** What `Load` did: the configuration, and whether `.env` was read. */
  datatype LoadResult = LoadResult(config: Config, readDotEnv: bool)

  const DefaultPort := "8180"
  const DefaultEnv := "development"
  const Production := "production"

  /** `os.Getenv(key)`: the empty string for an unset variable. */
  function Getenv(env: Env, key: string): (v: string)
    ensures key in env ==> v == env[key]
    ensures key !in env ==> v == ""
  {
    if key in env then env[key] else ""
  }

  /** `getEnv(key, fallback)`: the variable's value when it is set and
      non-empty, the fallback otherwise. */
  function GetEnv(env: Env, key: string, fallback: string): (r: string)
    ensures key in env && env[key] != "" ==> r == env[key]
    ensures key !in env ==> r == fallback
    ensures key in env && env[key] == "" ==> r == fallback
    ensures fallback != "" ==> r != ""
  {
    if key in env && env[key] != "" then env[key] else fallback
  }

  /** `Load()`: reads `.env` unless ENV is exactly "production"; a failed
      read changes nothing and does not stop the load; then PORT and ENV
      with their defaults. */
  function Load(env: Env, dotEnv: Option<Env>): (r: LoadResult)
    ensures r.readDotEnv <==> Getenv(env, "ENV") != Production
    ensures r.config.port != "" && r.config.env != ""
    ensures !r.readDotEnv || dotEnv.None? ==> r.config == Config(GetEnv(env, "PORT", DefaultPort), GetEnv(env, "ENV", DefaultEnv))
    ensures r.readDotEnv && dotEnv.Some? ==> r.config == Config(GetEnv(dotEnv.value, "PORT", DefaultPort), GetEnv(dotEnv.value, "ENV", DefaultEnv))
  {
    var readDotEnv := Getenv(env, "ENV") != Production;
    var effective := if readDotEnv && dotEnv.Some? then dotEnv.value else env;
    LoadResult(Config(GetEnv(effective, "PORT", DefaultPort), GetEnv(effective, "ENV", DefaultEnv)), readDotEnv)
  }

  /** PORT and ENV both unset or empty. */
  predicate Unconfigured(env: Env) {
    Getenv(env, "PORT") == "" && Getenv(env, "ENV") == ""
  }

  /** With PORT and ENV unset or empty, in the process environment and in
      whatever loading `.env` produced, the defaults apply, and `.env` is read. */
  lemma LoadDefaults(env: Env, dotEnv: Option<Env>)
    requires Unconfigured(env)
    requires dotEnv.None? || Unconfigured(dotEnv.value)
    ensures Load(env, dotEnv).config == Config("8180", "development")
    ensures Load(env, dotEnv).readDotEnv
  {
  }

  /** In production the `.env` file is not consulted: the configuration
      does not depend on what loading it would have produced, and its Env is "production". */
  lemma ProductionIgnoresDotEnv(env: Env, d1: Option<Env>, d2: Option<Env>)
    requires Getenv(env, "ENV") == Production
    ensures !Load(env, d1).readDotEnv
    ensures Load(env, d1).config == Load(env, d2).config
    ensures Load(env, d1).config.env == Production
  {
  }

  /** A failed `.env` load is harmless: the result is that of a load
      without the file. */
  lemma FailedDotEnvIsHarmless(env: Env)
    ensures Load(env, None).config == Config(GetEnv(env, "PORT", DefaultPort), GetEnv(env, "ENV", DefaultEnv))
  {
  }
}
