/** The environment variables of the server, each by its own name: which field of the configuration it sets, and what
    the field is without it (config/config.go, config/log.go). */
module ConfigVariables {
  import opened Decimal
  import opened Protocol
  import opened EnvFile
  import opened AppConfig
  import opened SavedConfig

  // ---- What a field takes from a text ----

  /** The text found, without the blanks around it, or `otherwise` where there is none but blanks. */
  ghost predicate TakesText(field: string, found: Option<string>, otherwise: string) {
    if found.Some? && TrimSpace(found.value) != "" then field == TrimSpace(found.value) else field == otherwise
  }

  /** The same in lower case. */
  ghost predicate TakesWord(field: string, found: Option<string>, otherwise: string, lib: Library) {
    if found.Some? && TrimSpace(found.value) != "" then field == lib.lower(TrimSpace(found.value))
    else field == lib.lower(otherwise)
  }

  /** The integer that the text found spells, or `otherwise` where there is none but blanks. */
  ghost predicate TakesInteger(field: int, found: Option<string>, otherwise: int) {
    if found.Some? && TrimSpace(found.value) != "" then Spelling(TrimSpace(found.value), field) && IsInt64(field)
    else field == otherwise
  }

  /** A driver by any of its names. */
  ghost predicate IsDriver(field: string, word: string) {
    if word == "sqlite" || word == "sqlite3" then field == "sqlite"
    else if word == "mysql" || word == "mariadb" then field == "mysql"
    else if word == "postgres" || word == "postgresql" || word == "pg" || word == "pgsql" then field == "postgres"
    else field == word
  }

  ghost predicate TakesDriver(field: string, found: Option<string>, otherwise: string, lib: Library) {
    if found.Some? && TrimSpace(found.value) != "" then IsDriver(field, lib.lower(TrimSpace(TrimSpace(found.value))))
    else IsDriver(field, lib.lower(TrimSpace(otherwise)))
  }

  lemma TextTaken(field: string, found: Option<string>, otherwise: string)
    ensures field == PickString(found, otherwise) <==> TakesText(field, found, otherwise)
  {
  }

  lemma IntegerTaken(field: int, found: Option<string>, otherwise: int)
    ensures Some(field) == PickInt(found, otherwise) <==> TakesInteger(field, found, otherwise)
  {
    if found.Some? {
      AtoiExactly(TrimSpace(found.value), field);
    }
  }

  // ---- Variable by variable ----

  /** The server's own variables, their fields and their defaults. */
  ghost predicate ServerFields(c: Config, look: string -> Option<string>, lib: Library) {
    && TakesText(c.serverName, look("SERVER_NAME"), "ws-server")
    && TakesWord(c.network, look("NETWORK"), "tcp", lib)
    && TakesText(c.listenAddr, look("LISTEN_ADDR"), ":8080")
    && TakesText(c.wsPath, look("WS_PATH"), "/ws")
    && TakesText(c.healthPath, look("HEALTH_PATH"), "/health")
    && TakesText(c.allowOrigins, look("ALLOW_ORIGINS"), "*")
    && TakesText(c.webhookURL, look("WEBHOOK_URL"), "")
  }

  /** The buffers and limits. */
  ghost predicate LimitFields(c: Config, look: string -> Option<string>, lib: Library) {
    && TakesInteger(c.readBufferSize, look("READ_BUFFER_SIZE"), 4096)
    && TakesInteger(c.writeBufferSize, look("WRITE_BUFFER_SIZE"), 4096)
    && TakesInteger(c.maxClientsPerArea, look("MAX_CLIENTS_PER_AREA"), 500)
    && TakesInteger(c.maxAreas, look("MAX_AREAS"), 10000)
    && TakesInteger(c.maxChannels, look("MAX_CHANNELS"), 20000)
    && TakesInteger(c.maxClientsPerChannel, look("MAX_CLIENTS_PER_CHANNEL"), 200)
  }

  /** The log. */
  ghost predicate LogFields(c: Config, look: string -> Option<string>, lib: Library) {
    && TakesWord(c.log.systemMode, look("SYSTEM_LOG_MODE"), "file", lib)
    && TakesWord(c.log.accessMode, look("ACCESS_LOG_MODE"), "file", lib)
    && TakesText(c.log.systemFile, look("SYSTEM_LOG_FILE"), "logs/system.log")
    && TakesText(c.log.accessFile, look("ACCESS_LOG_FILE"), "logs/access.log")
    && TakesDriver(c.log.dbDriver, look("LOG_DB_DRIVER"), "sqlite", lib)
    && TakesText(c.log.dbDSN, look("LOG_DB_DSN"), "logs/ws-server.db")
  }

  /** Every setting is read from what `look` finds under its name. */
  ghost predicate AllRead(c: Config, look: string -> Option<string>, lib: Library) {
    forall key: Key :: SettingOf(c, key) == Read(key, look(Name(key)), DEFAULT, lib)
  }

  lemma TextTakenFrom(key: Key, field: string, found: Option<string>, otherwise: string, lib: Library)
    requires !IsNumber(key) && !IsWord(key) && !key.LogDBDriver? && SettingOf(DEFAULT, key) == Text(otherwise)
    requires Text(field) == Read(key, found, DEFAULT, lib)
    ensures TakesText(field, found, otherwise)
  {
    ReadKinds(key, found, DEFAULT, lib);
    TextTaken(field, found, otherwise);
  }

  lemma WordTakenFrom(key: Key, field: string, found: Option<string>, otherwise: string, lib: Library)
    requires IsWord(key) && SettingOf(DEFAULT, key) == Text(otherwise)
    requires Text(field) == Read(key, found, DEFAULT, lib)
    ensures TakesWord(field, found, otherwise, lib)
  {
    ReadKinds(key, found, DEFAULT, lib);
  }

  lemma IntegerTakenFrom(key: Key, field: int, found: Option<string>, otherwise: int, lib: Library)
    requires IsNumber(key) && SettingOf(DEFAULT, key) == Number(otherwise)
    requires Number(field) == Read(key, found, DEFAULT, lib)
    ensures TakesInteger(field, found, otherwise)
  {
    ReadKinds(key, found, DEFAULT, lib);
    IntegerTaken(field, found, otherwise);
  }

  lemma DriverTaken(field: string, found: Option<string>, otherwise: string, lib: Library)
    requires field == NormalizeDriver(PickString(found, otherwise), lib)
    ensures TakesDriver(field, found, otherwise, lib)
  {
  }

  lemma DriverTakenFrom(key: Key, field: string, found: Option<string>, otherwise: string, lib: Library)
    requires key.LogDBDriver? && SettingOf(DEFAULT, key) == Text(otherwise)
    requires Text(field) == Read(key, found, DEFAULT, lib)
    ensures TakesDriver(field, found, otherwise, lib)
  {
    ReadKinds(key, found, DEFAULT, lib);
    DriverTaken(field, found, otherwise, lib);
  }

  lemma ServerNameVariable(c: Config, look: string -> Option<string>, lib: Library)
    requires AllRead(c, look, lib)
    ensures TakesText(c.serverName, look("SERVER_NAME"), "ws-server")
  {
    assert SettingOf(c, ServerName) == Read(ServerName, look("SERVER_NAME"), DEFAULT, lib);
    TextTakenFrom(ServerName, c.serverName, look("SERVER_NAME"), "ws-server", lib);
  }

  lemma NetworkVariable(c: Config, look: string -> Option<string>, lib: Library)
    requires AllRead(c, look, lib)
    ensures TakesWord(c.network, look("NETWORK"), "tcp", lib)
  {
    assert SettingOf(c, Network) == Read(Network, look("NETWORK"), DEFAULT, lib);
    WordTakenFrom(Network, c.network, look("NETWORK"), "tcp", lib);
  }

  lemma ListenAddrVariable(c: Config, look: string -> Option<string>, lib: Library)
    requires AllRead(c, look, lib)
    ensures TakesText(c.listenAddr, look("LISTEN_ADDR"), ":8080")
  {
    assert SettingOf(c, ListenAddr) == Read(ListenAddr, look("LISTEN_ADDR"), DEFAULT, lib);
    TextTakenFrom(ListenAddr, c.listenAddr, look("LISTEN_ADDR"), ":8080", lib);
  }

  lemma WSPathVariable(c: Config, look: string -> Option<string>, lib: Library)
    requires AllRead(c, look, lib)
    ensures TakesText(c.wsPath, look("WS_PATH"), "/ws")
  {
    assert SettingOf(c, WSPath) == Read(WSPath, look("WS_PATH"), DEFAULT, lib);
    TextTakenFrom(WSPath, c.wsPath, look("WS_PATH"), "/ws", lib);
  }

  lemma HealthPathVariable(c: Config, look: string -> Option<string>, lib: Library)
    requires AllRead(c, look, lib)
    ensures TakesText(c.healthPath, look("HEALTH_PATH"), "/health")
  {
    assert SettingOf(c, HealthPath) == Read(HealthPath, look("HEALTH_PATH"), DEFAULT, lib);
    TextTakenFrom(HealthPath, c.healthPath, look("HEALTH_PATH"), "/health", lib);
  }

  lemma AllowOriginsVariable(c: Config, look: string -> Option<string>, lib: Library)
    requires AllRead(c, look, lib)
    ensures TakesText(c.allowOrigins, look("ALLOW_ORIGINS"), "*")
  {
    assert SettingOf(c, AllowOrigins) == Read(AllowOrigins, look("ALLOW_ORIGINS"), DEFAULT, lib);
    TextTakenFrom(AllowOrigins, c.allowOrigins, look("ALLOW_ORIGINS"), "*", lib);
  }

  lemma WebhookURLVariable(c: Config, look: string -> Option<string>, lib: Library)
    requires AllRead(c, look, lib)
    ensures TakesText(c.webhookURL, look("WEBHOOK_URL"), "")
  {
    assert SettingOf(c, WebhookURL) == Read(WebhookURL, look("WEBHOOK_URL"), DEFAULT, lib);
    TextTakenFrom(WebhookURL, c.webhookURL, look("WEBHOOK_URL"), "", lib);
  }

  lemma ReadBufferSizeVariable(c: Config, look: string -> Option<string>, lib: Library)
    requires AllRead(c, look, lib)
    ensures TakesInteger(c.readBufferSize, look("READ_BUFFER_SIZE"), 4096)
  {
    assert SettingOf(c, ReadBufferSize) == Read(ReadBufferSize, look("READ_BUFFER_SIZE"), DEFAULT, lib);
    IntegerTakenFrom(ReadBufferSize, c.readBufferSize, look("READ_BUFFER_SIZE"), 4096, lib);
  }

  lemma WriteBufferSizeVariable(c: Config, look: string -> Option<string>, lib: Library)
    requires AllRead(c, look, lib)
    ensures TakesInteger(c.writeBufferSize, look("WRITE_BUFFER_SIZE"), 4096)
  {
    assert SettingOf(c, WriteBufferSize) == Read(WriteBufferSize, look("WRITE_BUFFER_SIZE"), DEFAULT, lib);
    IntegerTakenFrom(WriteBufferSize, c.writeBufferSize, look("WRITE_BUFFER_SIZE"), 4096, lib);
  }

  lemma MaxClientsPerAreaVariable(c: Config, look: string -> Option<string>, lib: Library)
    requires AllRead(c, look, lib)
    ensures TakesInteger(c.maxClientsPerArea, look("MAX_CLIENTS_PER_AREA"), 500)
  {
    assert SettingOf(c, MaxClientsPerArea) == Read(MaxClientsPerArea, look("MAX_CLIENTS_PER_AREA"), DEFAULT, lib);
    IntegerTakenFrom(MaxClientsPerArea, c.maxClientsPerArea, look("MAX_CLIENTS_PER_AREA"), 500, lib);
  }

  lemma MaxAreasVariable(c: Config, look: string -> Option<string>, lib: Library)
    requires AllRead(c, look, lib)
    ensures TakesInteger(c.maxAreas, look("MAX_AREAS"), 10000)
  {
    assert SettingOf(c, MaxAreas) == Read(MaxAreas, look("MAX_AREAS"), DEFAULT, lib);
    IntegerTakenFrom(MaxAreas, c.maxAreas, look("MAX_AREAS"), 10000, lib);
  }

  lemma MaxChannelsVariable(c: Config, look: string -> Option<string>, lib: Library)
    requires AllRead(c, look, lib)
    ensures TakesInteger(c.maxChannels, look("MAX_CHANNELS"), 20000)
  {
    assert SettingOf(c, MaxChannels) == Read(MaxChannels, look("MAX_CHANNELS"), DEFAULT, lib);
    IntegerTakenFrom(MaxChannels, c.maxChannels, look("MAX_CHANNELS"), 20000, lib);
  }

  lemma MaxClientsPerChannelVariable(c: Config, look: string -> Option<string>, lib: Library)
    requires AllRead(c, look, lib)
    ensures TakesInteger(c.maxClientsPerChannel, look("MAX_CLIENTS_PER_CHANNEL"), 200)
  {
    assert SettingOf(c, MaxClientsPerChannel)
           == Read(MaxClientsPerChannel, look("MAX_CLIENTS_PER_CHANNEL"), DEFAULT, lib);
    IntegerTakenFrom(MaxClientsPerChannel, c.maxClientsPerChannel, look("MAX_CLIENTS_PER_CHANNEL"), 200, lib);
  }

  lemma SystemLogModeVariable(c: Config, look: string -> Option<string>, lib: Library)
    requires AllRead(c, look, lib)
    ensures TakesWord(c.log.systemMode, look("SYSTEM_LOG_MODE"), "file", lib)
  {
    assert SettingOf(c, SystemLogMode) == Read(SystemLogMode, look("SYSTEM_LOG_MODE"), DEFAULT, lib);
    WordTakenFrom(SystemLogMode, c.log.systemMode, look("SYSTEM_LOG_MODE"), "file", lib);
  }

  lemma AccessLogModeVariable(c: Config, look: string -> Option<string>, lib: Library)
    requires AllRead(c, look, lib)
    ensures TakesWord(c.log.accessMode, look("ACCESS_LOG_MODE"), "file", lib)
  {
    assert SettingOf(c, AccessLogMode) == Read(AccessLogMode, look("ACCESS_LOG_MODE"), DEFAULT, lib);
    WordTakenFrom(AccessLogMode, c.log.accessMode, look("ACCESS_LOG_MODE"), "file", lib);
  }

  lemma SystemLogFileVariable(c: Config, look: string -> Option<string>, lib: Library)
    requires AllRead(c, look, lib)
    ensures TakesText(c.log.systemFile, look("SYSTEM_LOG_FILE"), "logs/system.log")
  {
    assert SettingOf(c, SystemLogFile) == Read(SystemLogFile, look("SYSTEM_LOG_FILE"), DEFAULT, lib);
    TextTakenFrom(SystemLogFile, c.log.systemFile, look("SYSTEM_LOG_FILE"), "logs/system.log", lib);
  }

  lemma AccessLogFileVariable(c: Config, look: string -> Option<string>, lib: Library)
    requires AllRead(c, look, lib)
    ensures TakesText(c.log.accessFile, look("ACCESS_LOG_FILE"), "logs/access.log")
  {
    assert SettingOf(c, AccessLogFile) == Read(AccessLogFile, look("ACCESS_LOG_FILE"), DEFAULT, lib);
    TextTakenFrom(AccessLogFile, c.log.accessFile, look("ACCESS_LOG_FILE"), "logs/access.log", lib);
  }

  lemma LogDBDriverVariable(c: Config, look: string -> Option<string>, lib: Library)
    requires AllRead(c, look, lib)
    ensures TakesDriver(c.log.dbDriver, look("LOG_DB_DRIVER"), "sqlite", lib)
  {
    assert SettingOf(c, LogDBDriver) == Read(LogDBDriver, look("LOG_DB_DRIVER"), DEFAULT, lib);
    DriverTakenFrom(LogDBDriver, c.log.dbDriver, look("LOG_DB_DRIVER"), "sqlite", lib);
  }

  lemma LogDBDSNVariable(c: Config, look: string -> Option<string>, lib: Library)
    requires AllRead(c, look, lib)
    ensures TakesText(c.log.dbDSN, look("LOG_DB_DSN"), "logs/ws-server.db")
  {
    assert SettingOf(c, LogDBDSN) == Read(LogDBDSN, look("LOG_DB_DSN"), DEFAULT, lib);
    TextTakenFrom(LogDBDSN, c.log.dbDSN, look("LOG_DB_DSN"), "logs/ws-server.db", lib);
  }

  lemma ServerFieldsRead(c: Config, look: string -> Option<string>, lib: Library)
    requires AllRead(c, look, lib)
    ensures ServerFields(c, look, lib)
  {
    ServerNameVariable(c, look, lib);
    NetworkVariable(c, look, lib);
    ListenAddrVariable(c, look, lib);
    WSPathVariable(c, look, lib);
    HealthPathVariable(c, look, lib);
    AllowOriginsVariable(c, look, lib);
    WebhookURLVariable(c, look, lib);
  }

  lemma LimitFieldsRead(c: Config, look: string -> Option<string>, lib: Library)
    requires AllRead(c, look, lib)
    ensures LimitFields(c, look, lib)
  {
    ReadBufferSizeVariable(c, look, lib);
    WriteBufferSizeVariable(c, look, lib);
    MaxClientsPerAreaVariable(c, look, lib);
    MaxAreasVariable(c, look, lib);
    MaxChannelsVariable(c, look, lib);
    MaxClientsPerChannelVariable(c, look, lib);
  }

  lemma LogFieldsRead(c: Config, look: string -> Option<string>, lib: Library)
    requires AllRead(c, look, lib)
    ensures LogFields(c, look, lib)
  {
    SystemLogModeVariable(c, look, lib);
    AccessLogModeVariable(c, look, lib);
    SystemLogFileVariable(c, look, lib);
    AccessLogFileVariable(c, look, lib);
    LogDBDriverVariable(c, look, lib);
    LogDBDSNVariable(c, look, lib);
  }

  /** What a load finds under a name: the environment's text, or else the file's first. */
  function FoundIn(env: Env, path: Option<File>): string -> Option<string> {
    name => Source(env, FileAt(path), name)
  }

  lemma LoadedIsRead(env: Env, path: Option<File>, lib: Library, c: Config)
    requires LoadOutcome(env, path, lib).result == Ok(c)
    ensures AllRead(c, FoundIn(env, path), lib)
  {
    LoadsExactly(env, path, lib, c);
    forall key: Key
      ensures SettingOf(c, key) == Read(key, FoundIn(env, path)(Name(key)), DEFAULT, lib)
    {
      assert SettingOf(c, key) == ValuesFrom(Sources(env, FileAt(path)), lib)(key);
    }
  }

  /** A load that succeeds has each field from its own variable, by its name, or from its default. */
  lemma EveryVariable(env: Env, path: Option<File>, lib: Library, c: Config)
    requires LoadOutcome(env, path, lib).result == Ok(c)
    ensures ServerFields(c, FoundIn(env, path), lib)
    ensures LimitFields(c, FoundIn(env, path), lib)
    ensures LogFields(c, FoundIn(env, path), lib)
  {
    LoadedIsRead(env, path, lib, c);
    ServerFieldsRead(c, FoundIn(env, path), lib);
    LimitFieldsRead(c, FoundIn(env, path), lib);
    LogFieldsRead(c, FoundIn(env, path), lib);
  }

  /** The names that loading knows, and no others, are kept out of the extra entries. */
  lemma KnownKeysAreSpelled()
    ensures KNOWN_KEYS == {
              "SERVER_NAME", "NETWORK", "LISTEN_ADDR", "WS_PATH", "HEALTH_PATH", "READ_BUFFER_SIZE",
              "WRITE_BUFFER_SIZE", "ALLOW_ORIGINS", "MAX_CLIENTS_PER_AREA", "MAX_AREAS", "MAX_CHANNELS",
              "MAX_CLIENTS_PER_CHANNEL", "SYSTEM_LOG_MODE", "ACCESS_LOG_MODE", "SYSTEM_LOG_FILE", "ACCESS_LOG_FILE",
              "LOG_DB_DRIVER", "LOG_DB_DSN", "WEBHOOK_URL"}
  {
  }

  // ---- When there is no configuration ----

  lemma SettledIsNoFileError(values: Key -> Value)
    ensures Settled(values).Err? ==> !Settled(values).problem.BadFile?
  {
  }

  lemma LoadedFileIsNoError(env: Env, path: Option<File>, lib: Library, error: LoadError)
    requires LoadResult(env, FileAt(path)).error == NoError
    ensures LoadOutcome(env, path, lib).result != Err(BadFile(error))
  {
    var values := ValuesFrom(Sources(env, FileAt(path)), lib);
    SourcesDecide(env, path, lib);
    SettledIsNoFileError(values);
    NeverBadFile(Settled(values), LoadedExtra(env, FileAt(path)), lib, error);
  }

  lemma FailedFileIsError(env: Env, path: Option<File>, lib: Library)
    ensures LoadOutcome(env, path, lib).env == LoadResult(env, FileAt(path)).env
    ensures var error := LoadResult(env, FileAt(path)).error;
            error != NoError ==> LoadOutcome(env, path, lib).result == Err(BadFile(error))
  {
  }

  /** A load fails with the file's error exactly when the file does; without a path it leaves the environment alone. */
  lemma FileErrorsAreReported(env: Env, path: Option<File>, lib: Library, error: LoadError)
    ensures LoadOutcome(env, path, lib).result == Err(BadFile(error))
            <==> error != NoError && path.Some? && LoadResult(env, path.value).error == error
    ensures LoadOutcome(env, path, lib).env == if path.Some? then LoadResult(env, path.value).env else env
  {
    NoFile(env);
    FailedFileIsError(env, path, lib);
    if LoadResult(env, FileAt(path)).error == NoError {
      LoadedFileIsNoError(env, path, lib, error);
    }
  }

  lemma NoFile(env: Env)
    ensures LoadResult(env, File("", false)) == Loaded(env, LoadState(map[], map[]), NoError)
  {
    assert RawLines("") == [];
    assert LinesOf(File("", false)) == [];
    assert Overlay(env, [], 0) == env;
  }

  lemma NeverBadFile(settled: Result<Config>, extra: map<string, string>, lib: Library, error: LoadError)
    requires settled.Ok? || !settled.problem.BadFile?
    ensures settled.Ok? ==> Checked(settled.value.(extra := extra), lib) != Err(BadFile(error))
  {
  }

  // ---- What a configuration must be ----

  /** A load that succeeds gives a configuration of this kind, and one that is not of this kind is refused. */
  ghost predicate Acceptable(c: Config, lib: Library) {
    && c.network in {"tcp", "tcp4", "tcp6"} && TrimSpace(c.listenAddr) != ""
    && c.wsPath != "" && c.wsPath[0] == '/' && c.healthPath != "" && c.healthPath[0] == '/' && c.wsPath != c.healthPath
    && 0 <= c.readBufferSize && 0 <= c.writeBufferSize
    && 0 <= c.maxClientsPerArea && 0 <= c.maxAreas && 0 <= c.maxChannels && 0 <= c.maxClientsPerChannel
    && var urls := TrimSpace(c.webhookURL);
       urls == "" || (urls[0] == '[' && lib.isURLArray(urls))
  }

  ghost predicate AcceptableLog(log: LogConfig) {
    && log.systemMode in {"off", "file", "db"} && log.accessMode in {"off", "file", "db"}
    && (log.systemMode == "file" ==> TrimSpace(log.systemFile) != "")
    && (log.accessMode == "file" ==> TrimSpace(log.accessFile) != "")
    && (log.systemMode == "db" || log.accessMode == "db" ==>
          log.dbDriver in {"sqlite", "mysql", "postgres"} && TrimSpace(log.dbDSN) != "")
  }

  lemma AcceptableExactly(c: Config, lib: Library)
    ensures ConfigProblem(c, lib).None? <==> Acceptable(c, lib)
    ensures LogProblem(c.log).None? <==> AcceptableLog(c.log)
  {
  }
}
