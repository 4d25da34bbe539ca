/** The server's configuration (config/config.go, config/log.go): defaults, overlaid by an env file, overlaid by the
    environment the process was started with. Unicode lower-casing and the JSON reader of WEBHOOK_URL are
    parameters. */
module AppConfig {
  import opened Decimal
  import opened Protocol
  import opened EnvFile

  datatype Library = Library(lower: string -> string, isURLArray: string -> bool)

  // ---- Keys ----

  datatype Key =
    | ServerName | Network | ListenAddr | WSPath | HealthPath | AllowOrigins
    | ReadBufferSize | WriteBufferSize | MaxClientsPerArea | MaxAreas | MaxChannels | MaxClientsPerChannel
    | SystemLogMode | AccessLogMode | SystemLogFile | AccessLogFile | LogDBDriver | LogDBDSN | WebhookURL

  function Name(key: Key): string {
    match key
    case ServerName => "SERVER_NAME"
    case Network => "NETWORK"
    case ListenAddr => "LISTEN_ADDR"
    case WSPath => "WS_PATH"
    case HealthPath => "HEALTH_PATH"
    case AllowOrigins => "ALLOW_ORIGINS"
    case ReadBufferSize => "READ_BUFFER_SIZE"
    case WriteBufferSize => "WRITE_BUFFER_SIZE"
    case MaxClientsPerArea => "MAX_CLIENTS_PER_AREA"
    case MaxAreas => "MAX_AREAS"
    case MaxChannels => "MAX_CHANNELS"
    case MaxClientsPerChannel => "MAX_CLIENTS_PER_CHANNEL"
    case SystemLogMode => "SYSTEM_LOG_MODE"
    case AccessLogMode => "ACCESS_LOG_MODE"
    case SystemLogFile => "SYSTEM_LOG_FILE"
    case AccessLogFile => "ACCESS_LOG_FILE"
    case LogDBDriver => "LOG_DB_DRIVER"
    case LogDBDSN => "LOG_DB_DSN"
    case WebhookURL => "WEBHOOK_URL"
  }

  const KNOWN_KEYS: set<string> := set key: Key :: Name(key)

  // ---- Values ----

  datatype LogConfig = LogConfig(systemMode: string, accessMode: string, systemFile: string, accessFile: string,
                                 dbDriver: string, dbDSN: string)

  datatype Config = Config(serverName: string, network: string, listenAddr: string, wsPath: string, healthPath: string,
                           allowOrigins: string, readBufferSize: int, writeBufferSize: int,
                           maxClientsPerArea: int, maxAreas: int, maxChannels: int, maxClientsPerChannel: int,
                           log: LogConfig, webhookURL: string, extra: map<string, string>)

  datatype Problem =
    | BadFile(error: LoadError) | NotInteger(key: Key)
    | BadMode(key: Key) | LogFileMissing(key: Key) | BadDriver | DSNMissing
    | BadNetwork | ListenAddrMissing | BadPath(key: Key) | SamePaths | NegativeBuffer | NegativeLimit | BadWebhooks

  datatype Result<+T> = Ok(value: T) | Err(problem: Problem)
  {
    predicate IsFailure() {
      Err?
    }

    function PropagateFailure<U>(): Result<U>
      requires Err?
    {
      Err(problem)
    }

    function Extract(): T
      requires Ok?
    {
      value
    }
  }

  const DEFAULT_LOG := LogConfig("file", "file", "logs/system.log", "logs/access.log", "sqlite", "logs/ws-server.db")

  const DEFAULT := Config("ws-server", "tcp", ":8080", "/ws", "/health", "*", 4096, 4096, 500, 10000, 20000, 200,
                          DEFAULT_LOG, "", map[])

  // ---- Reading one setting ----

  /** A setting's text: a blank one counts as absent. */
  function PickString(found: Option<string>, otherwise: string): string {
    if found.Some? && TrimSpace(found.value) != "" then TrimSpace(found.value) else otherwise
  }

  const INT_LIMIT: int := 0x8000_0000_0000_0000

  predicate IsInt64(n: int) {
    -INT_LIMIT <= n < INT_LIMIT
  }

  /** A decimal numeral with an optional sign, in the range of a 64-bit integer. */
  function Atoi(s: string): (n: Option<int>)
    ensures n.Some? ==> IsInt64(n.value)
  {
    var signed := s != "" && (s[0] == '-' || s[0] == '+');
    var digits := if signed then s[1..] else s;
    if digits == "" || !AllDigits(digits) then None
    else
      var n: int := if signed && s[0] == '-' then 0 - Parse(digits) else Parse(digits);
      if IsInt64(n) then Some(n) else None
  }

  function PickInt(found: Option<string>, otherwise: int): Option<int> {
    if found.Some? && TrimSpace(found.value) != "" then Atoi(TrimSpace(found.value)) else Some(otherwise)
  }

  // ---- Validation ----

  function NormalizeDriver(raw: string, lib: Library): string {
    var driver := lib.lower(TrimSpace(raw));
    if driver == "sqlite" || driver == "sqlite3" then "sqlite"
    else if driver == "mysql" || driver == "mariadb" then "mysql"
    else if driver == "postgres" || driver == "postgresql" || driver == "pg" || driver == "pgsql" then "postgres"
    else driver
  }

  predicate IsMode(mode: string) {
    mode == "off" || mode == "file" || mode == "db"
  }

  function LogProblem(log: LogConfig): Option<Problem> {
    if !IsMode(log.systemMode) then Some(BadMode(SystemLogMode))
    else if !IsMode(log.accessMode) then Some(BadMode(AccessLogMode))
    else if log.systemMode == "file" && TrimSpace(log.systemFile) == "" then Some(LogFileMissing(SystemLogFile))
    else if log.accessMode == "file" && TrimSpace(log.accessFile) == "" then Some(LogFileMissing(AccessLogFile))
    else if log.systemMode != "db" && log.accessMode != "db" then None
    else if log.dbDriver != "sqlite" && log.dbDriver != "mysql" && log.dbDriver != "postgres" then Some(BadDriver)
    else if TrimSpace(log.dbDSN) == "" then Some(DSNMissing)
    else None
  }

  predicate IsPath(path: string) {
    path != "" && path[0] == '/'
  }

  function ConfigProblem(c: Config, lib: Library): Option<Problem> {
    if c.network != "tcp" && c.network != "tcp4" && c.network != "tcp6" then Some(BadNetwork)
    else if TrimSpace(c.listenAddr) == "" then Some(ListenAddrMissing)
    else if !IsPath(c.wsPath) then Some(BadPath(WSPath))
    else if !IsPath(c.healthPath) then Some(BadPath(HealthPath))
    else if c.wsPath == c.healthPath then Some(SamePaths)
    else if c.readBufferSize < 0 || c.writeBufferSize < 0 then Some(NegativeBuffer)
    else if c.maxClientsPerArea < 0 || c.maxAreas < 0 || c.maxChannels < 0 || c.maxClientsPerChannel < 0
        then Some(NegativeLimit)
    else
      var urls := TrimSpace(c.webhookURL);
      if urls != "" && !("[" <= urls && lib.isURLArray(urls)) then Some(BadWebhooks) else None
  }

  // ---- What the settings come to ----

  datatype Value = Text(text: string) | Number(n: int) | NotANumber

  function SettingOf(c: Config, key: Key): Value {
    match key
    case ServerName => Text(c.serverName)
    case Network => Text(c.network)
    case ListenAddr => Text(c.listenAddr)
    case WSPath => Text(c.wsPath)
    case HealthPath => Text(c.healthPath)
    case AllowOrigins => Text(c.allowOrigins)
    case ReadBufferSize => Number(c.readBufferSize)
    case WriteBufferSize => Number(c.writeBufferSize)
    case MaxClientsPerArea => Number(c.maxClientsPerArea)
    case MaxAreas => Number(c.maxAreas)
    case MaxChannels => Number(c.maxChannels)
    case MaxClientsPerChannel => Number(c.maxClientsPerChannel)
    case SystemLogMode => Text(c.log.systemMode)
    case AccessLogMode => Text(c.log.accessMode)
    case SystemLogFile => Text(c.log.systemFile)
    case AccessLogFile => Text(c.log.accessFile)
    case LogDBDriver => Text(c.log.dbDriver)
    case LogDBDSN => Text(c.log.dbDSN)
    case WebhookURL => Text(c.webhookURL)
  }

  /** The place of an integer setting in the order in which they are read. */
  function Rank(key: Key): nat {
    match key
    case ReadBufferSize => 0
    case WriteBufferSize => 1
    case MaxClientsPerArea => 2
    case MaxAreas => 3
    case MaxChannels => 4
    case MaxClientsPerChannel => 5
    case _ => 6
  }

  predicate IsNumber(key: Key) {
    Rank(key) < 6
  }

  function NumberFrom(n: Option<int>): Value {
    if n.Some? then Number(n.value) else NotANumber
  }

  /** What a setting is read as, from the text found for it and its default. */
  function Read(key: Key, found: Option<string>, defaults: Config, lib: Library): (v: Value)
    ensures IsNumber(key) <==> !v.Text?
  {
    match SettingOf(defaults, key)
    case Number(otherwise) => NumberFrom(PickInt(found, otherwise))
    case Text(otherwise) =>
      var text := PickString(found, otherwise);
      if key.Network? || key.SystemLogMode? || key.AccessLogMode? then Text(lib.lower(text))
      else if key.LogDBDriver? then Text(NormalizeDriver(text, lib))
      else Text(text)
  }

  function TextOf(v: Value): string {
    if v.Text? then v.text else ""
  }

  function NumberOf(v: Value): int {
    if v.Number? then v.n else 0
  }

  /** A configuration from the value of each setting. */
  function Collected(values: Key -> Value, extra: map<string, string>): Config {
    Config(TextOf(values(ServerName)), TextOf(values(Network)), TextOf(values(ListenAddr)),
           TextOf(values(WSPath)), TextOf(values(HealthPath)), TextOf(values(AllowOrigins)),
           NumberOf(values(ReadBufferSize)), NumberOf(values(WriteBufferSize)),
           NumberOf(values(MaxClientsPerArea)), NumberOf(values(MaxAreas)),
           NumberOf(values(MaxChannels)), NumberOf(values(MaxClientsPerChannel)),
           CollectedLog(values), TextOf(values(WebhookURL)), extra)
  }

  function CollectedLog(values: Key -> Value): LogConfig {
    LogConfig(TextOf(values(SystemLogMode)), TextOf(values(AccessLogMode)), TextOf(values(SystemLogFile)),
              TextOf(values(AccessLogFile)), TextOf(values(LogDBDriver)), TextOf(values(LogDBDSN)))
  }

  lemma CollectedSetting(values: Key -> Value, extra: map<string, string>, key: Key)
    requires if IsNumber(key) then values(key).Number? else values(key).Text?
    ensures SettingOf(Collected(values, extra), key) == values(key)
  {
  }

  /** The settings' values make a configuration, and it is the only one that they make. */
  lemma CollectedExactly(values: Key -> Value, c: Config)
    requires forall key: Key :: if IsNumber(key) then values(key).Number? else values(key).Text?
    ensures c == Collected(values, c.extra) <==> forall key: Key :: SettingOf(c, key) == values(key)
  {
    forall key: Key
      ensures SettingOf(Collected(values, c.extra), key) == values(key)
    {
      CollectedSetting(values, c.extra, key);
    }
    SameSettings(c, Collected(values, c.extra));
  }

  lemma SameSettings(c: Config, d: Config)
    requires c.extra == d.extra
    ensures c == d <==> forall key: Key :: SettingOf(c, key) == SettingOf(d, key)
  {
    if forall key: Key :: SettingOf(c, key) == SettingOf(d, key) {
      SameTexts(c, d);
      SameIntegers(c, d);
      SameLogSettings(c, d);
    }
  }

  lemma SameTexts(c: Config, d: Config)
    requires forall key: Key :: SettingOf(c, key) == SettingOf(d, key)
    ensures c.serverName == d.serverName && c.network == d.network && c.listenAddr == d.listenAddr
    ensures c.wsPath == d.wsPath && c.healthPath == d.healthPath && c.allowOrigins == d.allowOrigins
    ensures c.webhookURL == d.webhookURL
  {
    assert SettingOf(c, ServerName) == SettingOf(d, ServerName) && SettingOf(c, Network) == SettingOf(d, Network);
    assert SettingOf(c, ListenAddr) == SettingOf(d, ListenAddr) && SettingOf(c, WSPath) == SettingOf(d, WSPath);
    assert SettingOf(c, HealthPath) == SettingOf(d, HealthPath);
    assert SettingOf(c, AllowOrigins) == SettingOf(d, AllowOrigins);
    assert SettingOf(c, WebhookURL) == SettingOf(d, WebhookURL);
  }

  lemma SameIntegers(c: Config, d: Config)
    requires forall key: Key :: SettingOf(c, key) == SettingOf(d, key)
    ensures c.readBufferSize == d.readBufferSize && c.writeBufferSize == d.writeBufferSize
    ensures c.maxClientsPerArea == d.maxClientsPerArea && c.maxAreas == d.maxAreas
    ensures c.maxChannels == d.maxChannels && c.maxClientsPerChannel == d.maxClientsPerChannel
  {
    assert SettingOf(c, ReadBufferSize) == SettingOf(d, ReadBufferSize);
    assert SettingOf(c, WriteBufferSize) == SettingOf(d, WriteBufferSize);
    assert SettingOf(c, MaxClientsPerArea) == SettingOf(d, MaxClientsPerArea);
    assert SettingOf(c, MaxAreas) == SettingOf(d, MaxAreas) && SettingOf(c, MaxChannels) == SettingOf(d, MaxChannels);
    assert SettingOf(c, MaxClientsPerChannel) == SettingOf(d, MaxClientsPerChannel);
  }

  lemma SameLogSettings(c: Config, d: Config)
    requires forall key: Key :: SettingOf(c, key) == SettingOf(d, key)
    ensures c.log == d.log
  {
    assert SettingOf(c, SystemLogMode) == SettingOf(d, SystemLogMode);
    assert SettingOf(c, AccessLogMode) == SettingOf(d, AccessLogMode);
    assert SettingOf(c, SystemLogFile) == SettingOf(d, SystemLogFile);
    assert SettingOf(c, AccessLogFile) == SettingOf(d, AccessLogFile);
    assert SettingOf(c, LogDBDriver) == SettingOf(d, LogDBDriver) && SettingOf(c, LogDBDSN) == SettingOf(d, LogDBDSN);
  }

  /** The first integer setting, in the order of reading, whose text is not an integer. */
  function FirstRefused(values: Key -> Value): Option<Key> {
    if values(ReadBufferSize).NotANumber? then Some(ReadBufferSize)
    else if values(WriteBufferSize).NotANumber? then Some(WriteBufferSize)
    else if values(MaxClientsPerArea).NotANumber? then Some(MaxClientsPerArea)
    else if values(MaxAreas).NotANumber? then Some(MaxAreas)
    else if values(MaxChannels).NotANumber? then Some(MaxChannels)
    else if values(MaxClientsPerChannel).NotANumber? then Some(MaxClientsPerChannel)
    else None
  }

  ghost predicate Refused(values: Key -> Value, key: Key) {
    IsNumber(key) && values(key).NotANumber?
  }

  lemma FirstRefusedExactly(values: Key -> Value, key: Key)
    ensures FirstRefused(values) == Some(key)
            <==> Refused(values, key) && forall other: Key :: Rank(other) < Rank(key) ==> !Refused(values, other)
    ensures FirstRefused(values).None? <==> forall other: Key :: !Refused(values, other)
  {
    var first := FirstRefused(values);
    if first.Some? {
      assert Refused(values, first.value);
      assert forall other: Key :: Rank(other) < Rank(first.value) ==> !Refused(values, other);
      assert Rank(key) == Rank(first.value) && IsNumber(key) ==> key == first.value;
    }
  }

  /** What the values of the settings come to before validation of the whole: integers first, then the log. */
  function Settled(values: Key -> Value): Result<Config> {
    match FirstRefused(values)
    case Some(key) => Err(NotInteger(key))
    case None =>
      var log :- Approved(CollectedLog(values));
      Ok(Collected(values, map[]).(log := log))
  }

  function Approved(log: LogConfig): Result<LogConfig> {
    match LogProblem(log)
    case Some(problem) => Err(problem)
    case None => Ok(log)
  }

  /** The value of each setting, where `look` finds the text for it. */
  function ValuesOver(defaults: Config, look: Key -> Option<string>, lib: Library): Key -> Value {
    key => Read(key, look(key), defaults, lib)
  }

  function ValuesFrom(look: Key -> Option<string>, lib: Library): Key -> Value {
    ValuesOver(DEFAULT, look, lib)
  }

  /** How an environment answers for each key. */
  function LookIn(env: Env): Key -> Option<string> {
    key => Lookup(env, Name(key))
  }

  function ValuesIn(env: Env, lib: Library): Key -> Value {
    ValuesFrom(LookIn(env), lib)
  }

  /** The unknown ones among the keys that the file names, with the values the environment ended up with. */
  function Extra(named: set<string>, after: Env): map<string, string> {
    map key | key in named && key !in KNOWN_KEYS && key in after :: after[key]
  }

  function Checked(c: Config, lib: Library): Result<Config> {
    match ConfigProblem(c, lib)
    case Some(problem) => Err(problem)
    case None => Ok(c)
  }

  datatype Outcome = Outcome(env: Env, result: Result<Config>)

  /** No path at all loads as an empty file does. */
  function FileAt(path: Option<File>): File {
    match path
    case None => File("", false)
    case Some(file) => file
  }

  /** What loading the configuration comes to. */
  function LoadOutcome(env: Env, path: Option<File>, lib: Library): Outcome {
    var loaded := LoadResult(env, FileAt(path));
    Outcome(loaded.env,
            if loaded.error != NoError then Err(BadFile(loaded.error))
            else
              var c :- Settled(ValuesIn(loaded.env, lib));
              Checked(c.(extra := Extra(Named(env, FileAt(path)), loaded.env)), lib))
  }

  /** What the extra keys may be read from: every key set is one the file names, and so is every key skipped. */
  lemma StateNames(env: Env, file: File)
    ensures var loaded := LoadResult(env, file);
            && loaded.state.fromFile.Keys + loaded.state.skippedOS.Keys == Named(env, file) <= loaded.env.Keys
            && (forall key :: key in loaded.state.fromFile ==> loaded.state.fromFile[key] == loaded.env[key])
  {
    NamedKeys(env, LinesOf(file), StopLine(env, LinesOf(file), 0));
  }

  lemma ExtraAdds(named: set<string>, key: string, env: Env)
    ensures Extra(named + {key}, env)
         == if key !in KNOWN_KEYS && key in env then Extra(named, env)[key := env[key]] else Extra(named, env)
  {
  }

  /** The unknown keys among those set from the file and those skipped, collected in any order. */
  method CollectExtra(st: LoadState, env: Env) returns (extra: map<string, string>)
    requires forall key :: key in st.fromFile ==> key in env && st.fromFile[key] == env[key]
    ensures extra == Extra(st.fromFile.Keys + st.skippedOS.Keys, env)
  {
    extra := map[];
    ghost var seen: set<string> := {};
    var todo := st.fromFile.Keys;
    while todo != {}
      invariant todo <= st.fromFile.Keys <= seen + todo <= st.fromFile.Keys
      invariant extra == Extra(seen, env)
    {
      var key :| key in todo;
      todo := todo - {key};
      ExtraAdds(seen, key, env);
      seen := seen + {key};
      if key !in KNOWN_KEYS {
        extra := extra[key := st.fromFile[key]];
      }
    }
    todo := st.skippedOS.Keys;
    while todo != {}
      invariant todo <= st.skippedOS.Keys
      invariant seen + todo == st.fromFile.Keys + st.skippedOS.Keys
      invariant extra == Extra(seen, env)
    {
      var key :| key in todo;
      todo := todo - {key};
      ExtraAdds(seen, key, env);
      seen := seen + {key};
      if key !in KNOWN_KEYS && key in env {
        extra := extra[key := env[key]];
      }
    }
    assert seen == st.fromFile.Keys + st.skippedOS.Keys;
  }

  // ---- Reading the settings, step by step ----

  function EnvString(look: Key -> Option<string>, key: Key, otherwise: string): string {
    PickString(look(key), otherwise)
  }

  function EnvInt(look: Key -> Option<string>, key: Key, otherwise: int): (r: Result<int>) {
    match PickInt(look(key), otherwise)
    case Some(n) => Ok(n)
    case None => Err(NotInteger(key))
  }

  lemma IntOver(d: Config, look: Key -> Option<string>, lib: Library, key: Key)
    requires IsNumber(key)
    ensures var v := ValuesOver(d, look, lib)(key);
            && (v.Number? || v.NotANumber?)
            && EnvInt(look, key, NumberOf(SettingOf(d, key))) == if v.Number? then Ok(v.n) else Err(NotInteger(key))
  {
    assert ValuesOver(d, look, lib)(key) == Read(key, look(key), d, lib);
  }

  lemma AddressesOver(d: Config, look: Key -> Option<string>, lib: Library)
    ensures var values := ValuesOver(d, look, lib);
            && TextOf(values(ServerName)) == EnvString(look, ServerName, d.serverName)
            && TextOf(values(Network)) == lib.lower(EnvString(look, Network, d.network))
            && TextOf(values(ListenAddr)) == EnvString(look, ListenAddr, d.listenAddr)
            && TextOf(values(AllowOrigins)) == EnvString(look, AllowOrigins, d.allowOrigins)
  {
  }

  lemma PathsOver(d: Config, look: Key -> Option<string>, lib: Library)
    ensures var values := ValuesOver(d, look, lib);
            && TextOf(values(WSPath)) == EnvString(look, WSPath, d.wsPath)
            && TextOf(values(HealthPath)) == EnvString(look, HealthPath, d.healthPath)
            && TextOf(values(WebhookURL)) == EnvString(look, WebhookURL, d.webhookURL)
  {
  }

  lemma LogModesOver(d: Config, look: Key -> Option<string>, lib: Library)
    ensures var values := ValuesOver(d, look, lib);
            && TextOf(values(SystemLogMode)) == lib.lower(EnvString(look, SystemLogMode, d.log.systemMode))
            && TextOf(values(AccessLogMode)) == lib.lower(EnvString(look, AccessLogMode, d.log.accessMode))
  {
  }

  lemma LogDriverOver(d: Config, look: Key -> Option<string>, lib: Library)
    ensures TextOf(ValuesOver(d, look, lib)(LogDBDriver))
            == NormalizeDriver(EnvString(look, LogDBDriver, d.log.dbDriver), lib)
  {
  }

  lemma LogFilesOver(d: Config, look: Key -> Option<string>, lib: Library)
    ensures var values := ValuesOver(d, look, lib);
            && TextOf(values(SystemLogFile)) == EnvString(look, SystemLogFile, d.log.systemFile)
            && TextOf(values(AccessLogFile)) == EnvString(look, AccessLogFile, d.log.accessFile)
            && TextOf(values(LogDBDSN)) == EnvString(look, LogDBDSN, d.log.dbDSN)
  {
  }

  /** `look` is how the environment answers for each key. */
  method LoadLog(look: Key -> Option<string>, d: Config, lib: Library) returns (result: Result<LogConfig>)
    ensures result == Approved(CollectedLog(ValuesOver(d, look, lib)))
  {
    var log := LogConfig(
      lib.lower(EnvString(look, SystemLogMode, d.log.systemMode)),
      lib.lower(EnvString(look, AccessLogMode, d.log.accessMode)),
      EnvString(look, SystemLogFile, d.log.systemFile),
      EnvString(look, AccessLogFile, d.log.accessFile),
      NormalizeDriver(EnvString(look, LogDBDriver, d.log.dbDriver), lib),
      EnvString(look, LogDBDSN, d.log.dbDSN));
    LogModesOver(d, look, lib);
    LogDriverOver(d, look, lib);
    LogFilesOver(d, look, lib);
    return Approved(log);
  }

  method FillIntegers(look: Key -> Option<string>, d: Config, lib: Library, before: Config)
      returns (result: Result<Config>)
    requires before.readBufferSize == d.readBufferSize && before.writeBufferSize == d.writeBufferSize
    requires before.maxClientsPerArea == d.maxClientsPerArea && before.maxAreas == d.maxAreas
    requires before.maxChannels == d.maxChannels && before.maxClientsPerChannel == d.maxClientsPerChannel
    ensures var values := ValuesOver(d, look, lib);
            result == match FirstRefused(values)
                      case Some(key) => Err(NotInteger(key))
                      case None => Ok(before.(readBufferSize := NumberOf(values(ReadBufferSize)),
                                              writeBufferSize := NumberOf(values(WriteBufferSize)),
                                              maxClientsPerArea := NumberOf(values(MaxClientsPerArea)),
                                              maxAreas := NumberOf(values(MaxAreas)),
                                              maxChannels := NumberOf(values(MaxChannels)),
                                              maxClientsPerChannel := NumberOf(values(MaxClientsPerChannel))))
  {
    var c := before;
    IntOver(d, look, lib, ReadBufferSize);
    var n :- EnvInt(look, ReadBufferSize, c.readBufferSize);
    c := c.(readBufferSize := n);
    IntOver(d, look, lib, WriteBufferSize);
    n :- EnvInt(look, WriteBufferSize, c.writeBufferSize);
    c := c.(writeBufferSize := n);
    IntOver(d, look, lib, MaxClientsPerArea);
    n :- EnvInt(look, MaxClientsPerArea, c.maxClientsPerArea);
    c := c.(maxClientsPerArea := n);
    IntOver(d, look, lib, MaxAreas);
    n :- EnvInt(look, MaxAreas, c.maxAreas);
    c := c.(maxAreas := n);
    IntOver(d, look, lib, MaxChannels);
    n :- EnvInt(look, MaxChannels, c.maxChannels);
    c := c.(maxChannels := n);
    IntOver(d, look, lib, MaxClientsPerChannel);
    n :- EnvInt(look, MaxClientsPerChannel, c.maxClientsPerChannel);
    c := c.(maxClientsPerChannel := n);
    return Ok(c);
  }

  method FillSettings(look: Key -> Option<string>, d: Config, lib: Library) returns (result: Result<Config>)
    requires d.extra == map[]
    ensures result == Settled(ValuesOver(d, look, lib))
  {
    AddressesOver(d, look, lib);
    PathsOver(d, look, lib);
    var c := d;
    c := c.(serverName := EnvString(look, ServerName, c.serverName));
    c := c.(network := lib.lower(EnvString(look, Network, c.network)));
    c := c.(listenAddr := EnvString(look, ListenAddr, c.listenAddr));
    c := c.(wsPath := EnvString(look, WSPath, c.wsPath));
    c := c.(healthPath := EnvString(look, HealthPath, c.healthPath));
    c := c.(allowOrigins := EnvString(look, AllowOrigins, c.allowOrigins));
    c :- FillIntegers(look, d, lib, c);
    var log :- LoadLog(look, d, lib);
    c := c.(log := log);
    c := c.(webhookURL := EnvString(look, WebhookURL, c.webhookURL));
    return Ok(c);
  }

  method LoadIfNamed(process: Process, path: Option<File>) returns (st: LoadState, error: LoadError)
    modifies process
    ensures Loaded(process.env, st, error) == LoadResult(old(process.env), FileAt(path))
  {
    st, error := LoadState(map[], map[]), NoError;
    if path.Some? {
      st, error := process.LoadFile(path.value);
    }
  }

  method Load(process: Process, path: Option<File>, lib: Library) returns (result: Result<Config>)
    modifies process
    ensures Outcome(process.env, result) == LoadOutcome(old(process.env), path, lib)
  {
    var st, error := LoadIfNamed(process, path);
    if error != NoError {
      return Err(BadFile(error));
    }
    StateNames(old(process.env), FileAt(path));
    var c :- FillSettings(LookIn(process.env), DEFAULT, lib);
    var extra := CollectExtra(st, process.env);
    c := c.(extra := extra);
    result := Checked(c, lib);
  }

  // ---- Where a setting comes from ----

  /** Every setting of `c` is what `look` finds for it, or its default where `look` finds nothing but blanks. */
  ghost predicate ReadFrom(c: Config, look: Key -> Option<string>, lib: Library) {
    forall key: Key :: SettingOf(c, key) == ValuesFrom(look, lib)(key)
  }

  /** Numbers where numbers belong, if they are numerals at all. */
  ghost predicate WellTyped(values: Key -> Value) {
    forall key: Key :: IsNumber(key) <==> !values(key).Text?
  }

  lemma ValuesAreWellTyped(defaults: Config, look: Key -> Option<string>, lib: Library)
    ensures WellTyped(ValuesOver(defaults, look, lib))
  {
    forall key: Key
      ensures ValuesOver(defaults, look, lib)(key) == Read(key, look(key), defaults, lib)
    {
    }
  }

  lemma NoneRefused(values: Key -> Value, c: Config)
    requires WellTyped(values) && forall key: Key :: SettingOf(c, key) == values(key)
    ensures FirstRefused(values).None?
  {
    forall key: Key
      ensures !Refused(values, key)
    {
      assert SettingOf(c, key) == values(key);
    }
    FirstRefusedExactly(values, ReadBufferSize);
  }

  lemma SettledByValues(values: Key -> Value, c: Config)
    requires WellTyped(values)
    ensures Settled(values) == Ok(c)
            <==> (forall key: Key :: SettingOf(c, key) == values(key)) && LogProblem(c.log).None? && c.extra == map[]
  {
    FirstRefusedExactly(values, ReadBufferSize);
    if FirstRefused(values).None? {
      forall key: Key
        ensures if IsNumber(key) then values(key).Number? else values(key).Text?
      {
        assert !Refused(values, key);
      }
      CollectedExactly(values, c);
    } else if forall key: Key :: SettingOf(c, key) == values(key) {
      NoneRefused(values, c);
    }
  }

  /** The settings come to a configuration exactly when each is what its variable or its default says, all integers
      are integers, and the log's part is valid. */
  lemma SettledExactly(look: Key -> Option<string>, lib: Library, c: Config)
    ensures Settled(ValuesFrom(look, lib)) == Ok(c)
            <==> ReadFrom(c, look, lib) && LogProblem(c.log).None? && c.extra == map[]
  {
    ValuesAreWellTyped(DEFAULT, look, lib);
    SettledByValues(ValuesFrom(look, lib), c);
  }

  lemma SettledAlike(values1: Key -> Value, values2: Key -> Value)
    requires forall key: Key :: values1(key) == values2(key)
    ensures Settled(values1) == Settled(values2)
  {
  }

  /** Only the known keys are read: environments that agree on them give the same settings or the same error. */
  lemma OnlyKnownKeysRead(env1: Env, env2: Env, lib: Library)
    requires forall key: Key :: Lookup(env1, Name(key)) == Lookup(env2, Name(key))
    ensures Settled(ValuesIn(env1, lib)) == Settled(ValuesIn(env2, lib))
  {
    SettledAlike(ValuesIn(env1, lib), ValuesIn(env2, lib));
  }

  /** The text that each setting is read from: the environment outranks the file. */
  function Sources(env: Env, file: File): Key -> Option<string> {
    key => Source(env, file, Name(key))
  }

  function LoadedExtra(env: Env, file: File): map<string, string> {
    Extra(Named(env, file), LoadResult(env, file).env)
  }

  /** Once the file is loaded, the settings' sources decide. */
  lemma SourcesDecide(env: Env, path: Option<File>, lib: Library)
    requires LoadResult(env, FileAt(path)).error == NoError
    ensures LoadOutcome(env, path, lib).result
         == match Settled(ValuesFrom(Sources(env, FileAt(path)), lib))
            case Err(problem) => Err(problem)
            case Ok(c) => Checked(c.(extra := LoadedExtra(env, FileAt(path))), lib)
  {
    var file, after := FileAt(path), LoadResult(env, FileAt(path)).env;
    forall key: Key
      ensures ValuesIn(after, lib)(key) == ValuesFrom(Sources(env, file), lib)(key)
    {
      SourceIsFound(env, file, Name(key));
    }
    SettledAlike(ValuesIn(after, lib), ValuesFrom(Sources(env, file), lib));
  }

  lemma OtherExtra(c: Config, d: Config, extra: map<string, string>, look: Key -> Option<string>, lib: Library)
    requires d.extra == map[]
    ensures c == d.(extra := extra) <==> d == c.(extra := map[]) && c.extra == extra
    ensures ReadFrom(c.(extra := map[]), look, lib) <==> ReadFrom(c, look, lib)
  {
    forall key: Key
      ensures SettingOf(c.(extra := map[]), key) == SettingOf(c, key)
    {
    }
  }

  /** The configuration that loading gives, if it gives one. */
  lemma LoadsExactly(env: Env, path: Option<File>, lib: Library, c: Config)
    ensures LoadOutcome(env, path, lib).result == Ok(c) <==>
            && LoadResult(env, FileAt(path)).error == NoError
            && ReadFrom(c, Sources(env, FileAt(path)), lib)
            && LogProblem(c.log).None? && ConfigProblem(c, lib).None?
            && c.extra == LoadedExtra(env, FileAt(path))
  {
    if LoadResult(env, FileAt(path)).error == NoError {
      var look := Sources(env, FileAt(path));
      SourcesDecide(env, path, lib);
      SettledExactly(look, lib, c.(extra := map[]));
      var settled := Settled(ValuesFrom(look, lib));
      OtherExtra(c, if settled.Ok? then settled.value else DEFAULT, LoadedExtra(env, FileAt(path)), look, lib);
    }
  }

  // ---- Which problem is reported ----

  /** A reader of words that leaves every text alone, and of no URLs. */
  const PLAIN := Library(s => s, s => false)

  lemma ValidationAcceptsIntegers(c: Config, lib: Library, key: Key)
    ensures LogProblem(c.log) != Some(NotInteger(key)) && ConfigProblem(c, lib) != Some(NotInteger(key))
  {
  }

  lemma SettledNotInteger(values: Key -> Value, key: Key)
    ensures Settled(values) == Err(NotInteger(key))
            <==> Refused(values, key) && forall other: Key :: Rank(other) < Rank(key) ==> !Refused(values, other)
  {
    FirstRefusedExactly(values, key);
    ValidationAcceptsIntegers(Collected(values, map[]), PLAIN, key);
  }

  /** A load reports a setting as not an integer exactly when the file loads and this is the first integer setting,
      in the order of reading, whose text is none. */
  lemma NotIntegerExactly(env: Env, path: Option<File>, lib: Library, key: Key)
    ensures LoadOutcome(env, path, lib).result == Err(NotInteger(key)) <==>
            var values := ValuesFrom(Sources(env, FileAt(path)), lib);
            && LoadResult(env, FileAt(path)).error == NoError
            && Refused(values, key) && forall other: Key :: Rank(other) < Rank(key) ==> !Refused(values, other)
  {
    if LoadResult(env, FileAt(path)).error == NoError {
      var values := ValuesFrom(Sources(env, FileAt(path)), lib);
      SourcesDecide(env, path, lib);
      SettledNotInteger(values, key);
      if Settled(values).Ok? {
        ValidationAcceptsIntegers(Settled(values).value.(extra := LoadedExtra(env, FileAt(path))), lib, key);
      }
    }
  }

  /** When every setting can be read, validation of the log and then of the whole decides. */
  lemma ValidationDecides(env: Env, path: Option<File>, lib: Library, c: Config)
    requires LoadResult(env, FileAt(path)).error == NoError
    requires ReadFrom(c, Sources(env, FileAt(path)), lib) && c.extra == LoadedExtra(env, FileAt(path))
    ensures LoadOutcome(env, path, lib).result
         == match LogProblem(c.log) case Some(problem) => Err(problem) case None => Checked(c, lib)
  {
    var look := Sources(env, FileAt(path));
    var values := ValuesFrom(look, lib);
    SourcesDecide(env, path, lib);
    ValuesAreWellTyped(DEFAULT, look, lib);
    NoneRefused(values, c);
    FirstRefusedExactly(values, ReadBufferSize);
    forall key: Key
      ensures if IsNumber(key) then values(key).Number? else values(key).Text?
    {
      assert !Refused(values, key);
    }
    CollectedExactly(values, c);
  }

  // ---- The documented order ----

  predicate IsBlank(s: string) {
    TrimSpace(s) == ""
  }

  /** The documented order: a value set in the environment, else one in the file, else the default. */
  function Documented(env: Env, file: File): Key -> Option<string> {
    (key: Key) =>
      if Name(key) in env && !IsBlank(env[Name(key)]) then Some(env[Name(key)]) else FileValue(env, file, Name(key))
  }

  /** The environment sets a variable to blanks, and the file's value would be read as something else than the
      default. */
  ghost predicate Hidden(env: Env, file: File, key: Key, lib: Library) {
    && Name(key) in env && IsBlank(env[Name(key)])
    && Read(key, FileValue(env, file, Name(key)), DEFAULT, lib) != Read(key, None, DEFAULT, lib)
  }

  lemma BlankReadsAsNone(key: Key, text: string, lib: Library)
    requires IsBlank(text)
    ensures Read(key, Some(text), DEFAULT, lib) == Read(key, None, DEFAULT, lib)
  {
  }

  /** A setting follows the documented order if and only if no blank value in the environment hides the file's. */
  lemma DocumentedOrder(env: Env, path: Option<File>, lib: Library, c: Config, key: Key)
    requires LoadOutcome(env, path, lib).result == Ok(c)
    ensures SettingOf(c, key) == Read(key, Documented(env, FileAt(path))(key), DEFAULT, lib)
            <==> !Hidden(env, FileAt(path), key, lib)
  {
    LoadsExactly(env, path, lib, c);
    assert SettingOf(c, key) == ValuesFrom(Sources(env, FileAt(path)), lib)(key);
    if Name(key) in env && IsBlank(env[Name(key)]) {
      BlankReadsAsNone(key, env[Name(key)], lib);
    }
  }

  // ---- The other keys, and loading again ----

  lemma ExtraSources(env: Env, file: File)
    ensures var extra := Extra(Named(env, file), LoadResult(env, file).env);
            && extra.Keys == Named(env, file) - KNOWN_KEYS
            && forall key :: key in extra ==> Some(extra[key]) == Source(env, file, key)
  {
    StateNames(env, file);
    forall key
      ensures Lookup(LoadResult(env, file).env, key) == Source(env, file, key)
    {
      SourceIsFound(env, file, key);
    }
  }

  /** On success, the extra entries are the unknown keys that the file names, with their final values. */
  lemma ExtraIsUnknownNamed(env: Env, path: Option<File>, lib: Library, c: Config)
    requires LoadOutcome(env, path, lib).result == Ok(c)
    ensures c.extra.Keys == Named(env, FileAt(path)) - KNOWN_KEYS
    ensures forall key :: key in c.extra ==> Some(c.extra[key]) == Source(env, FileAt(path), key)
  {
    LoadsExactly(env, path, lib, c);
    ExtraSources(env, FileAt(path));
  }

  /** Loading the configuration again changes nothing and gives the same configuration, or the same error. */
  lemma LoadingConfigAgain(env: Env, path: Option<File>, lib: Library)
    ensures var once := LoadOutcome(env, path, lib); LoadOutcome(once.env, path, lib) == once
  {
    var file := FileAt(path);
    LoadingAgain(env, file);
    NamedAgain(env, file);
  }

  lemma NamedAgain(env: Env, file: File)
    ensures Named(LoadResult(env, file).env, file) == Named(env, file)
  {
    StopLineAgain(env, LinesOf(file));
  }
}
