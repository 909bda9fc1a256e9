/** Agent configuration: its shape, its defaults and its validation. */
module Config {
  import opened Wrappers

  datatype ServerConfig = ServerConfig(url: string, apiKey: string)

  /** `level` is one of "none", "metadata", "full" once validated. */
  datatype SharingConfig = SharingConfig(level: string, excludeProjects: seq<string>, anonymizePaths: bool)

  /** `interval` is in seconds. */
  datatype SyncConfig = SyncConfig(interval: int, retryAttempts: int)

  datatype LoggingConfig = LoggingConfig(level: string, file: string)

  datatype Config = Config(server: ServerConfig, sharing: SharingConfig, sync: SyncConfig, logging: LoggingConfig)

  datatype ConfigError = MissingServerURL | MissingAPIKey | InvalidShareLevel {
    function Message(): string {
      match this
      case MissingServerURL => "server.url is required"
      case MissingAPIKey => "server.api_key is required"
      case InvalidShareLevel => "sharing.level must be none, metadata, or full"
    }
  }

  const ShareLevels: set<string> := {"none", "metadata", "full"}

  /** The configuration a fresh install starts from: it names a server but
      carries no API key, so it does not validate until a key is supplied. */
  function DefaultConfig(): (c: Config)
    ensures c.server.url != "" && c.server.apiKey == ""
    ensures c.sharing.level in ShareLevels && c.sharing.anonymizePaths && c.sharing.excludeProjects == []
    ensures c.sync.interval > 0 && c.sync.retryAttempts > 0
    ensures c.sharing.level == "metadata" && c.sync.interval == 300 && c.sync.retryAttempts == 3
  {
    Config(
      ServerConfig("https://insights.dkd.internal", ""),
      SharingConfig("metadata", [], true),
      SyncConfig(300, 3),
      LoggingConfig("info", ""))
  }

  /** The three checks, in order; the first that fails decides the error. */
  function Validate(c: Config): (r: Option<ConfigError>)
    ensures r == Some(MissingServerURL) <==> c.server.url == ""
    ensures r == Some(MissingAPIKey) <==> c.server.url != "" && c.server.apiKey == ""
    ensures r == Some(InvalidShareLevel) <==> c.server.url != "" && c.server.apiKey != "" && c.sharing.level !in ShareLevels
    ensures r == None <==> c.server.url != "" && c.server.apiKey != "" && c.sharing.level in ShareLevels
  {
    if c.server.url == "" then Some(MissingServerURL)
    else if c.server.apiKey == "" then Some(MissingAPIKey)
    else if c.sharing.level != "none" && c.sharing.level != "metadata" && c.sharing.level != "full" then Some(InvalidShareLevel)
    else None
  }

  /** The defaults fail validation on the missing API key, and supplying a
      key is all it takes to make them valid. */
  lemma DefaultsNeedOnlyAKey(key: string)
    requires key != ""
    ensures Validate(DefaultConfig()) == Some(MissingAPIKey)
    ensures var d := DefaultConfig(); Validate(d.(server := d.server.(apiKey := key))) == None
  {
  }
}
