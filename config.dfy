// backend/internal/config/config.go: settings read from the environment, each
// with a default. The environment is a map; an unset variable is an absent key.
module Config {
  import opened Wrappers
  import Text

  type Env = map<string, string>

  /** getEnv: the variable's value, or the default when it is unset or empty. */
  function GetEnv(env: Env, key: string, default: string): (r: string)
    ensures key !in env || env[key] == "" ==> r == default
    ensures key in env && env[key] != "" ==> r == env[key]
  {
    if key in env && env[key] != "" then env[key] else default
  }

  /** getEnvAsInt: the value read by strconv.Atoi, or the default when it is empty or rejected. */
  function GetEnvAsInt(env: Env, key: string, default: int): (r: int)
    ensures key !in env || env[key] == "" ==> r == default
    ensures key in env && Text.Atoi(env[key]).None? ==> r == default
    ensures key in env && Text.Atoi(env[key]).Some? ==> r == Text.Atoi(env[key]).value
  {
    if key in env && env[key] != "" then
      match Text.Atoi(env[key])
      case Some(v) => v
      case None => default
    else default
  }

  /** Go's strconv.ParseBool: the twelve spellings it accepts. */
  function ParseBool(s: string): (r: Option<bool>)
    ensures r.Some? ==> 1 <= |s| <= 5 && (r.value <==> s[0] in "1tT")
  {
    if s in ["1", "t", "T", "TRUE", "true", "True"] then Some(true)
    else if s in ["0", "f", "F", "FALSE", "false", "False"] then Some(false)
    else None
  }

  /** "yes", "on" and a mixed-case "tRUE" are not booleans to ParseBool. */
  lemma ParseBoolRejects()
    ensures ParseBool("yes") == None && ParseBool("on") == None && ParseBool("tRUE") == None
  {
  }

  function GetEnvAsBool(env: Env, key: string, default: bool): (r: bool)
    ensures key !in env || env[key] == "" ==> r == default
    ensures key in env && ParseBool(env[key]).None? ==> r == default
    ensures key in env && ParseBool(env[key]).Some? ==> r == ParseBool(env[key]).value
  {
    if key in env && env[key] != "" then
      match ParseBool(env[key])
      case Some(b) => b
      case None => default
    else default
  }

  /** A number written in decimal is read back exactly, over the int64 range. */
  lemma IntSettingRoundTrip(env: Env, key: string, default: int, n: int)
    requires Text.MinInt64 <= n <= Text.MaxInt64
    requires key in env && env[key] == Text.IntToString(n)
    ensures GetEnvAsInt(env, key, default) == n
  {
    Text.AtoiRoundTrip(n);
  }

  datatype ServerConfig = ServerConfig(port: string, allowedOrigins: seq<string>, requestTimeout: int)
  datatype DatabaseConfig = DatabaseConfig(kind: string, host: string, port: string, name: string,
                                           user: string, password: string, sslMode: string, filePath: string)
  datatype AuthConfig = AuthConfig(googleClientId: string, googleClientSecret: string, redirectUrl: string,
                                   jwtSecret: string, jwtExpirationHours: int)
  datatype EmailConfig = EmailConfig(smtpHost: string, smtpPort: string, smtpUser: string,
                                     smtpPassword: string, fromEmail: string, fromName: string)
  datatype ExternalConfig = ExternalConfig(gseBaseUrl: string, proxyUrl: string)
  datatype CacheConfig = CacheConfig(url: string, host: string, port: string, password: string,
                                     db: int, enabled: bool, stockCacheTtlMinutes: int)
  datatype Settings = Settings(server: ServerConfig, database: DatabaseConfig, auth: AuthConfig,
                               email: EmailConfig, external: ExternalConfig, cache: CacheConfig)

  const DefaultFrontend: string := "http://localhost:3000"

  /** Load: every setting from its variable or its default; it cannot fail. */
  function Load(env: Env): (r: Settings)
    ensures |r.server.allowedOrigins| == 4
    ensures r.server.allowedOrigins[0] == GetEnv(env, "FRONTEND_URL", DefaultFrontend)
  {
    Settings(
      ServerConfig(
        GetEnv(env, "PORT", "10000"),
        [GetEnv(env, "FRONTEND_URL", DefaultFrontend), "http://localhost:3000",
         "http://localhost:5173", "https://stock-alert-gh.onrender.com"],
        GetEnvAsInt(env, "REQUEST_TIMEOUT", 60)),
      DatabaseConfig(
        GetEnv(env, "DB_TYPE", "sqlite"), GetEnv(env, "DB_HOST", "localhost"),
        GetEnv(env, "DB_PORT", "5432"), GetEnv(env, "DB_NAME", "shares_alert"),
        GetEnv(env, "DB_USER", ""), GetEnv(env, "DB_PASSWORD", ""),
        GetEnv(env, "DB_SSL_MODE", "disable"), GetEnv(env, "DB_FILE_PATH", "./data/shares_alert.db")),
      AuthConfig(
        GetEnv(env, "GOOGLE_CLIENT_ID", ""), GetEnv(env, "GOOGLE_CLIENT_SECRET", ""),
        GetEnv(env, "OAUTH_REDIRECT_URL", "http://localhost:5173/"),
        GetEnv(env, "JWT_SECRET", "your-secret-key-change-in-production"),
        GetEnvAsInt(env, "JWT_EXPIRATION_HOURS", 24)),
      EmailConfig(
        GetEnv(env, "SMTP_HOST", "smtp.gmail.com"), GetEnv(env, "SMTP_PORT", "587"),
        GetEnv(env, "SMTP_USER", ""), GetEnv(env, "SMTP_PASSWORD", ""),
        GetEnv(env, "FROM_EMAIL", ""), GetEnv(env, "FROM_NAME", "Shares Alert Ghana")),
      ExternalConfig(
        GetEnv(env, "GSE_BASE_URL", "https://dev.kwayisi.org/apis/gse"),
        GetEnv(env, "PROXY_URL", "https://api.allorigins.win/raw?url=")),
      CacheConfig(
        GetEnv(env, "REDIS_URL", ""), GetEnv(env, "REDIS_HOST", "localhost"),
        GetEnv(env, "REDIS_PORT", "6379"), GetEnv(env, "REDIS_PASSWORD", ""),
        GetEnvAsInt(env, "REDIS_DB", 0), GetEnvAsBool(env, "REDIS_ENABLED", true),
        GetEnvAsInt(env, "STOCK_CACHE_TTL_MINUTES", 5)))
  }

  /** With nothing set: port 10000, 60-second timeout, 24-hour tokens, cache on for 5 minutes, mail unconfigured. */
  lemma EmptyEnvironmentDefaults()
    ensures var s := Load(map[]);
      && s.server.port == "10000" && s.server.requestTimeout == 60
      && s.server.allowedOrigins[0] == DefaultFrontend
      && s.auth.jwtExpirationHours == 24
      && s.cache.enabled && s.cache.stockCacheTtlMinutes == 5
      && s.email.smtpUser == "" && s.email.smtpPassword == ""
  {
  }

  /** An unparsable REDIS_ENABLED keeps the cache on; "false" turns it off. */
  lemma CacheSwitch(env: Env)
    ensures "REDIS_ENABLED" in env && env["REDIS_ENABLED"] == "false" ==> !Load(env).cache.enabled
    ensures "REDIS_ENABLED" in env && env["REDIS_ENABLED"] == "off" ==> Load(env).cache.enabled
  {
    assert Load(env).cache.enabled == GetEnvAsBool(env, "REDIS_ENABLED", true);
    assert ParseBool("false") == Some(false);
    assert ParseBool("off") == None;
  }
}
