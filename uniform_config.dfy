/**
 * Reading the CMS credentials: the `extra` block of the Expo configuration
 * (or of the legacy manifest), each field falling back to an
 * `EXPO_PUBLIC_UNIFORM_*` environment variable.
 */
module UniformConfig {
  import opened JsValue

  /**
   * What the function reads: `Constants.expoConfig?.extra`,
   * `Constants.manifest?.extra` and the three environment variables
   * (a missing variable is undefined).
   */
  datatype ConfigSources = ConfigSources(
    expoConfigExtra: Value,
    manifestExtra: Value,
    envApiKey: Value,
    envProjectId: Value,
    envApiHost: Value)

  /** `UniformConfig`: the settings the service is constructed with. */
  datatype Config = Config(apiKey: Value, projectId: Value, apiHost: Value)

  /** The returned config and whether the credentials warning was issued. */
  datatype ConfigResult = ConfigResult(config: Config, warned: bool)

  /** `expoConfig.extra ?? manifest.extra ?? {}`. */
  function Extra(src: ConfigSources): (extra: Value)
    ensures !Nullish(src.expoConfigExtra) ==> extra == src.expoConfigExtra
    ensures Nullish(src.expoConfigExtra) && !Nullish(src.manifestExtra) ==> extra == src.manifestExtra
    ensures Nullish(src.expoConfigExtra) && Nullish(src.manifestExtra) ==> extra == Obj(map[])
    ensures !Nullish(extra)
  {
    Coalesce(Coalesce(src.expoConfigExtra, src.manifestExtra), Obj(map[]))
  }

  /** `extra || env || ''`: the first truthy source, else the empty string. */
  predicate FirstTruthyOrEmpty(r: Value, fromExtra: Value, fromEnv: Value) {
    && (Truthy(fromExtra) ==> r == fromExtra)
    && (!Truthy(fromExtra) && Truthy(fromEnv) ==> r == fromEnv)
    && (!Truthy(fromExtra) && !Truthy(fromEnv) ==> r == Str(""))
  }

  /**
   * `getUniformConfig`: the key and the project id each come from `extra` if
   * truthy, else the environment if truthy, else ''; the host from `extra`,
   * else the environment as it is (possibly undefined: no default here). The
   * warning is issued exactly when the key or the project id is empty, and the
   * config is returned either way.
   */
  function GetUniformConfig(src: ConfigSources): (r: ConfigResult)
    ensures FirstTruthyOrEmpty(r.config.apiKey, Get(Extra(src), "uniformApiKey"), src.envApiKey)
    ensures FirstTruthyOrEmpty(r.config.projectId, Get(Extra(src), "uniformProjectId"), src.envProjectId)
    ensures Truthy(Get(Extra(src), "uniformApiHost")) ==> r.config.apiHost == Get(Extra(src), "uniformApiHost")
    ensures !Truthy(Get(Extra(src), "uniformApiHost")) ==> r.config.apiHost == src.envApiHost
    ensures r.warned <==> !Truthy(r.config.apiKey) || !Truthy(r.config.projectId)
  {
    var extra := Extra(src);
    var apiKey := Or(Or(Get(extra, "uniformApiKey"), src.envApiKey), Str(""));
    var projectId := Or(Or(Get(extra, "uniformProjectId"), src.envProjectId), Str(""));
    var apiHost := Or(Get(extra, "uniformApiHost"), src.envApiHost);
    ConfigResult(Config(apiKey, projectId, apiHost), !Truthy(apiKey) || !Truthy(projectId))
  }

  /** A falsy key or project id is always exactly '', and then the warning is issued. */
  lemma MissingCredentialsAreEmpty(src: ConfigSources)
    ensures var c := GetUniformConfig(src).config;
      (!Truthy(c.apiKey) ==> c.apiKey == Str(""))
      && (!Truthy(c.projectId) ==> c.projectId == Str(""))
    ensures GetUniformConfig(src).warned <==>
      GetUniformConfig(src).config.apiKey == Str("") || GetUniformConfig(src).config.projectId == Str("")
  {
  }
}
