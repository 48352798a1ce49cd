/**
 * backend/config.py: the settings class, its production and development
 * variants, `validate`, `is_production` and `get_config`. The environment
 * is given as the values the class body reads (integers already parsed;
 * a variable that does not parse as an integer stops the import, which is
 * not modelled).
 */
module BackendConfig {
  import opened Wrappers
  import opened Text

  /** The environment variables the checked settings come from; None where unset. */
  datatype Env = Env(apiKey: Option<string>, baseUrl: Option<string>, port: int, cacheTtl: int,
                     rateLimitRequests: int, debug: Option<string>, environment: Option<string>)

  /** `Config`, `ProductionConfig` or `DevelopmentConfig`. */
  datatype Profile = Base | Production | Development

  /** The class attributes `validate` and `is_production` read. */
  datatype Settings = Settings(apiKey: string, baseUrl: string, port: int, cacheTtl: int,
                               rateLimitRequests: int, debug: bool)

  /** The attributes of `profile`: the base class reads the environment, the variants override some of them. */
  function SettingsOf(profile: Profile, env: Env): (s: Settings)
    ensures s.apiKey == env.apiKey.GetOr("") && s.baseUrl == env.baseUrl.GetOr("") && s.port == env.port
    ensures profile == Production ==> s.cacheTtl == 7200 && s.rateLimitRequests == 1000 && !s.debug
    ensures profile == Development ==> s.cacheTtl == 300 && s.rateLimitRequests == 10 && s.debug
    ensures profile == Base ==>
      s.cacheTtl == env.cacheTtl && s.rateLimitRequests == env.rateLimitRequests
      && (s.debug <==> Lower(env.debug.GetOr("false")) == "true")
  {
    var base := Settings(env.apiKey.GetOr(""), env.baseUrl.GetOr(""), env.port, env.cacheTtl, env.rateLimitRequests,
                         Lower(env.debug.GetOr("false")) == "true");
    match profile
    case Base => base
    case Production => base.(cacheTtl := 7200, rateLimitRequests := 1000, debug := false)
    case Development => base.(cacheTtl := 300, rateLimitRequests := 10, debug := true)
  }

  const ApiKeyRequired: string := "UFL_AI_API_KEY is required"
  const BaseUrlRequired: string := "UFL_AI_BASE_URL is required"
  const PortOutOfRange: string := "PORT must be between 1 and 65535"
  const NegativeCacheTtl: string := "CACHE_TTL must be non-negative"
  const RateLimitNotPositive: string := "RATE_LIMIT_REQUESTS must be positive"

  predicate PortValid(port: int)
  {
    1 <= port <= 65535
  }

  /** One message per broken rule, in the order the rules are checked. */
  function Validate(s: Settings): (errors: seq<string>)
    ensures ApiKeyRequired in errors <==> s.apiKey == ""
    ensures BaseUrlRequired in errors <==> s.baseUrl == ""
    ensures PortOutOfRange in errors <==> !PortValid(s.port)
    ensures NegativeCacheTtl in errors <==> s.cacheTtl < 0
    ensures RateLimitNotPositive in errors <==> s.rateLimitRequests < 1
    ensures errors == [] <==> s.apiKey != "" && s.baseUrl != "" && PortValid(s.port) && s.cacheTtl >= 0 && s.rateLimitRequests >= 1
    ensures |errors| <= 5
  {
    (if s.apiKey == "" then [ApiKeyRequired] else [])
    + (if s.baseUrl == "" then [BaseUrlRequired] else [])
    + (if !PortValid(s.port) then [PortOutOfRange] else [])
    + (if s.cacheTtl < 0 then [NegativeCacheTtl] else [])
    + (if s.rateLimitRequests < 1 then [RateLimitNotPositive] else [])
  }

  /**
   * The two variants fix the cache lifetime and the rate limit at valid
   * values, so their validation fails only on the API key, the base URL or
   * the port.
   */
  lemma VariantsOnlyCheckEnvironment(profile: Profile, env: Env)
    requires profile != Base
    ensures Validate(SettingsOf(profile, env)) ==
      (if env.apiKey.GetOr("") == "" then [ApiKeyRequired] else [])
      + (if env.baseUrl.GetOr("") == "" then [BaseUrlRequired] else [])
      + (if !PortValid(env.port) then [PortOutOfRange] else [])
  {
  }

  /** `is_production`: debugging off and ENVIRONMENT, lower-cased, is "production". */
  function IsProduction(s: Settings, environment: Option<string>): (r: bool)
    ensures r ==> !s.debug && environment.Some?
  {
    assert |Lower("")| != |"production"|;
    !s.debug && Lower(environment.GetOr("")) == "production"
  }

  /** `get_config`: the production variant exactly when ENVIRONMENT, lower-cased, is "production". */
  function GetConfig(environment: Option<string>): (p: Profile)
    ensures p != Base
  {
    if Lower(environment.GetOr("development")) == "production" then Production else Development
  }

  /**
   * The configuration `get_config` picks reports production exactly when
   * ENVIRONMENT says production: the development variant always has
   * debugging on.
   */
  lemma ChosenConfigKnowsItsMode(env: Env)
    ensures var p := GetConfig(env.environment);
      IsProduction(SettingsOf(p, env), env.environment) <==> Lower(env.environment.GetOr("")) == "production"
    ensures GetConfig(env.environment) == Production <==> Lower(env.environment.GetOr("")) == "production"
  {
    assert |Lower("development")| != |"production"|;
    assert |Lower("")| != |"production"|;
  }
}
