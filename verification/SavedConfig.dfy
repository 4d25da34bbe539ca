/** Writing a configuration out as an env file and loading it back. */
module SavedConfig {
  import opened Decimal
  import opened Protocol
  import opened EnvFile
  import opened AppConfig

  // ---- Integers ----

  function FormatInt(n: int): string {
    if n < 0 then "-" + Format(-n) else Format(n)
  }

  lemma AtoiOfDigits(d: string)
    requires d != "" && AllDigits(d)
    ensures Atoi(d) == if IsInt64(Parse(d)) then Some(Parse(d)) else None
  {
    assert IsDigit(d[0]);
  }

  lemma AtoiOfSigned(sign: char, d: string)
    requires sign == '-' || sign == '+'
    ensures Atoi([sign] + d) ==
              if d == "" || !AllDigits(d) then None
              else
                var n: int := if sign == '-' then 0 - Parse(d) else Parse(d);
                if IsInt64(n) then Some(n) else None
  {
    assert ([sign] + d)[1..] == d;
  }

  lemma AtoiOfFormat(m: nat)
    ensures Atoi(Format(m)) == if IsInt64(m) then Some(m) else None
  {
    ParseFormat(m);
    AtoiOfDigits(Format(m));
  }

  lemma AtoiOfMinusFormat(m: nat)
    ensures var n: int := 0 - m; Atoi(['-'] + Format(m)) == if IsInt64(n) then Some(n) else None
  {
    ParseFormat(m);
    AtoiOfSigned('-', Format(m));
  }

  /** A printed integer reads back exactly when it fits in 64 bits. */
  lemma AtoiFormat(n: int)
    ensures Atoi(FormatInt(n)) == if IsInt64(n) then Some(n) else None
  {
    if n < 0 {
      var m: nat := -n;
      assert FormatInt(n) == ['-'] + Format(m);
      AtoiOfMinusFormat(m);
    } else {
      AtoiOfFormat(n);
    }
  }

  /** A text spells `n`: an optional sign that suits it, any zeros, and its numeral. */
  ghost predicate Spelling(s: string, n: int) {
    exists sign: string, k: nat :: s == Spelled(sign, k, n) && SignSuits(sign, n)
  }

  function Spelled(sign: string, k: nat, n: int): string {
    sign + (Zeros(k) + Format(if n < 0 then -n else n))
  }

  predicate SignSuits(sign: string, n: int) {
    if sign == "-" then n <= 0 else (sign == "" || sign == "+") && n >= 0
  }

  /** The texts that are read as `n` are exactly its spellings, if it fits in 64 bits. */
  lemma AtoiExactly(s: string, n: int)
    ensures Atoi(s) == Some(n) <==> -0x8000_0000_0000_0000 <= n < 0x8000_0000_0000_0000 && Spelling(s, n)
  {
    if Atoi(s) == Some(n) {
      AcceptedIsSpelling(s, n);
    }
    if IsInt64(n) && Spelling(s, n) {
      var sign: string, k: nat :| s == Spelled(sign, k, n) && SignSuits(sign, n);
      SpellingIsAccepted(sign, k, n);
    }
  }

  lemma SpellingIsAccepted(sign: string, k: nat, n: int)
    requires IsInt64(n) && SignSuits(sign, n)
    ensures Atoi(Spelled(sign, k, n)) == Some(n)
  {
    var magnitude: nat := if n < 0 then -n else n;
    var d := Zeros(k) + Format(magnitude);
    ZerosAddNothing(k, magnitude);
    if sign == "" {
      assert sign + d == d;
      AtoiOfDigits(d);
    } else {
      assert sign == [sign[0]];
      AtoiOfSigned(sign[0], d);
    }
  }

  lemma AcceptedIsSpelling(s: string, n: int)
    requires Atoi(s) == Some(n)
    ensures Spelling(s, n)
  {
    var signed := s != "" && (s[0] == '-' || s[0] == '+');
    var sign, d := if signed then [s[0]] else "", if signed then s[1..] else s;
    assert s == sign + d;
    var k := DigitsAreNumeral(d);
    assert Parse(d) == if n < 0 then -n else n;
    assert s == Spelled(sign, k, n) && SignSuits(sign, n);
  }

  lemma IntIsTidy(n: int)
    ensures IsTidy(FormatInt(n))
  {
  }

  // ---- Text ----

  predicate IsTidy(s: string) {
    s != "" && !IsSpace(s[0]) && !IsSpace(s[|s| - 1])
  }

  lemma TidyKept(s: string, otherwise: string)
    ensures IsTidy(s) ==> PickString(Some(s), otherwise) == s
    ensures PickString(Some(s), otherwise) == s ==> IsTidy(s) || s == otherwise
  {
  }

  // ---- Writing ----

  /** A setting as the file spells it. */
  function ValueOf(c: Config, key: Key): string {
    match SettingOf(c, key)
    case Text(text) => text
    case Number(n) => FormatInt(n)
    case NotANumber => ""
  }

  /** The bindings give every setting of `c`, or leave one out where `c` has the default, and bind exactly its
      extra keys beside them; the order is free. */
  ghost predicate Spells(bindings: seq<(string, string)>, c: Config) {
    && (forall key: Key :: Stated(FirstIn(bindings, Name(key)), c, key))
    && (forall name :: name !in KNOWN_KEYS ==> FirstIn(bindings, name) == Lookup(c.extra, name))
    && c.extra.Keys !! KNOWN_KEYS
  }

  ghost predicate Stated(found: Option<string>, c: Config, key: Key) {
    Tells(found, ValueOf(c, key), ValueOf(DEFAULT, key))
  }

  ghost predicate Tells(found: Option<string>, val: string, otherwise: string) {
    if found.Some? then found.value == val else val == otherwise
  }

  /** The environment has none of the settings, and none of the names in the file. */
  ghost predicate Unset(env: Env, bindings: seq<(string, string)>) {
    && (forall key: Key :: Name(key) !in env)
    && (forall i :: 0 <= i < |bindings| ==> bindings[i].0 !in env)
  }

  predicate IsWord(key: Key) {
    key.Network? || key.SystemLogMode? || key.AccessLogMode?
  }

  /** A setting that loading would leave alone: a text that is neither blank nor padded, a word already in the form
      that loading gives it, an integer of 64 bits. Only the webhook setting may be empty. */
  ghost predicate Kept(c: Config, key: Key, defaults: Config, lib: Library) {
    match SettingOf(c, key)
    case Number(n) => IsInt64(n)
    case Text(text) =>
      if IsWord(key) then lib.lower(text) == text
      else if key.LogDBDriver? then NormalizeDriver(PickString(Some(text), defaults.log.dbDriver), lib) == text
      else IsTidy(text) || (key.WebhookURL? && text == "")
    case NotANumber => false
  }

  ghost predicate Restorable(c: Config, lib: Library) {
    forall key: Key :: Kept(c, key, DEFAULT, lib)
  }

  // ---- Reading it back ----

  lemma {:induction false} FirstInBound(bindings: seq<(string, string)>, name: string)
    ensures FirstIn(bindings, name).Some? <==> exists i :: 0 <= i < |bindings| && bindings[i].0 == name
  {
    if bindings != [] {
      FirstInBound(bindings[1..], name);
      if i :| 0 <= i < |bindings| && bindings[i].0 == name {
        assert i == 0 || bindings[1..][i - 1].0 == name;
      }
      if i :| 0 <= i < |bindings[1..]| && bindings[1..][i].0 == name {
        assert bindings[i + 1].0 == name;
      }
    }
  }

  // One setting at a time

  lemma TextRead(found: Option<string>, val: string, otherwise: string)
    requires Tells(found, val, otherwise) && IsTidy(otherwise)
    ensures PickString(found, otherwise) == PickString(Some(val), otherwise)
    ensures val == PickString(found, otherwise) <==> IsTidy(val)
  {
  }

  lemma IntRead(found: Option<string>, n: int, otherwise: int)
    requires Tells(found, FormatInt(n), FormatInt(otherwise)) && IsInt64(otherwise)
    ensures Some(n) == PickInt(found, otherwise) <==> IsInt64(n)
  {
    AtoiFormat(n);
    AtoiFormat(otherwise);
    IntIsTidy(n);
    IntIsTidy(otherwise);
  }

  ghost predicate TidyDefault(defaults: Config, key: Key) {
    match SettingOf(defaults, key)
    case Number(n) => IsInt64(n)
    case Text(text) => if key.WebhookURL? then text == "" else IsTidy(text)
    case NotANumber => false
  }

  lemma DefaultsAreTidy(key: Key)
    ensures TidyDefault(DEFAULT, key)
  {
  }

  lemma WordRead(found: Option<string>, text: string, otherwise: string, lib: Library)
    requires Tells(found, text, otherwise) && IsTidy(text) && IsTidy(otherwise)
    ensures lib.lower(PickString(found, otherwise)) == text <==> lib.lower(text) == text
  {
    TextRead(found, text, otherwise);
  }

  lemma WebhookRead(found: Option<string>, text: string)
    requires Tells(found, text, "")
    ensures text == PickString(found, "") <==> text == "" || IsTidy(text)
  {
    TidyKept(text, "");
  }

  lemma ReadKinds(key: Key, found: Option<string>, defaults: Config, lib: Library)
    ensures var otherwise, v := SettingOf(defaults, key), Read(key, found, defaults, lib);
            && (IsNumber(key) ==> v == NumberFrom(PickInt(found, NumberOf(otherwise))))
            && (IsWord(key) ==> v == Text(lib.lower(PickString(found, TextOf(otherwise)))))
            && (key.LogDBDriver? ==> v == Text(NormalizeDriver(PickString(found, TextOf(otherwise)), lib)))
            && (!IsNumber(key) && !IsWord(key) && !key.LogDBDriver? ==> v == Text(PickString(found, TextOf(otherwise))))
  {
  }

  lemma NumberSettingRead(found: Option<string>, n: int, key: Key, defaults: Config, lib: Library)
    requires IsNumber(key) && TidyDefault(defaults, key) && Tells(found, FormatInt(n), ValueOf(defaults, key))
    ensures Number(n) == Read(key, found, defaults, lib) <==> IsInt64(n)
  {
    ReadKinds(key, found, defaults, lib);
    IntRead(found, n, NumberOf(SettingOf(defaults, key)));
  }

  lemma WordSettingRead(found: Option<string>, text: string, key: Key, defaults: Config, lib: Library)
    requires IsWord(key) && TidyDefault(defaults, key) && IsTidy(text) && Tells(found, text, ValueOf(defaults, key))
    ensures Text(text) == Read(key, found, defaults, lib) <==> lib.lower(text) == text
  {
    ReadKinds(key, found, defaults, lib);
    WordRead(found, text, TextOf(SettingOf(defaults, key)), lib);
  }

  lemma DriverSettingRead(found: Option<string>, text: string, defaults: Config, lib: Library)
    requires TidyDefault(defaults, LogDBDriver) && Tells(found, text, defaults.log.dbDriver)
    ensures Text(text) == Read(LogDBDriver, found, defaults, lib)
            <==> NormalizeDriver(PickString(Some(text), defaults.log.dbDriver), lib) == text
  {
    ReadKinds(LogDBDriver, found, defaults, lib);
    TextRead(found, text, defaults.log.dbDriver);
  }

  lemma PlainSettingRead(found: Option<string>, text: string, key: Key, defaults: Config, lib: Library)
    requires !IsNumber(key) && !IsWord(key) && !key.LogDBDriver?
    requires TidyDefault(defaults, key) && Tells(found, text, ValueOf(defaults, key))
    ensures Text(text) == Read(key, found, defaults, lib) <==> IsTidy(text) || (key.WebhookURL? && text == "")
  {
    ReadKinds(key, found, defaults, lib);
    if key.WebhookURL? {
      WebhookRead(found, text);
    } else {
      TextRead(found, text, TextOf(SettingOf(defaults, key)));
    }
  }

  /** One setting, as it was written or left out, reads back exactly when loading leaves it alone. */
  lemma SettingRead(found: Option<string>, c: Config, key: Key, defaults: Config, lib: Library)
    requires Tells(found, ValueOf(c, key), ValueOf(defaults, key)) && TidyDefault(defaults, key)
    requires IsWord(key) ==> IsTidy(ValueOf(c, key))
    ensures SettingOf(c, key) == Read(key, found, defaults, lib) <==> Kept(c, key, defaults, lib)
  {
    match SettingOf(c, key)
    case Number(n) => NumberSettingRead(found, n, key, defaults, lib);
    case Text(text) =>
      if IsWord(key) {
        WordSettingRead(found, text, key, defaults, lib);
      } else if key.LogDBDriver? {
        DriverSettingRead(found, text, defaults, lib);
      } else {
        PlainSettingRead(found, text, key, defaults, lib);
      }
  }

  lemma TidyWords(word: string)
    ensures word == "tcp" || word == "tcp4" || word == "tcp6" || IsMode(word) ==> IsTidy(word)
  {
  }

  lemma ValidNetworkIsTidy(c: Config, lib: Library)
    requires ConfigProblem(c, lib).None?
    ensures IsTidy(c.network)
  {
    TidyWords(c.network);
  }

  lemma ValidModesAreTidy(log: LogConfig)
    requires LogProblem(log).None?
    ensures IsTidy(log.systemMode) && IsTidy(log.accessMode)
  {
    TidyWords(log.systemMode);
    TidyWords(log.accessMode);
  }

  lemma WordsAreTidy(c: Config, lib: Library, key: Key)
    requires LogProblem(c.log).None? && ConfigProblem(c, lib).None? && IsWord(key)
    ensures IsTidy(ValueOf(c, key))
  {
    ValidNetworkIsTidy(c, lib);
    ValidModesAreTidy(c.log);
  }

  lemma ValueRead(look: Key -> Option<string>, c: Config, lib: Library, key: Key)
    requires Stated(look(key), c, key) && (IsWord(key) ==> IsTidy(ValueOf(c, key)))
    ensures SettingOf(c, key) == ValuesFrom(look, lib)(key) <==> Kept(c, key, DEFAULT, lib)
  {
    DefaultsAreTidy(key);
    SettingRead(look(key), c, key, DEFAULT, lib);
  }

  lemma SettingsRead(look: Key -> Option<string>, c: Config, lib: Library)
    requires forall key: Key :: Stated(look(key), c, key)
    requires LogProblem(c.log).None? && ConfigProblem(c, lib).None?
    ensures ReadFrom(c, look, lib) <==> Restorable(c, lib)
  {
    forall key: Key
      ensures SettingOf(c, key) == ValuesFrom(look, lib)(key) <==> Kept(c, key, DEFAULT, lib)
    {
      if IsWord(key) {
        WordsAreTidy(c, lib, key);
      }
      ValueRead(look, c, lib, key);
    }
  }

  lemma ExtraRead(env: Env, bindings: seq<(string, string)>, c: Config)
    requires Printable(bindings) && Fits(bindings) && Settable(env, bindings)
    requires Unset(env, bindings) && Spells(bindings, c)
    ensures LoadedExtra(env, PrintedFile(bindings)) == c.extra
  {
    var file := PrintedFile(bindings);
    StateNames(env, file);
    forall name
      ensures Lookup(LoadedExtra(env, file), name) == Lookup(c.extra, name)
    {
      FirstInBound(bindings, name);
      PrintedValues(env, bindings, name);
      SourceIsFound(env, file, name);
    }
    SameEntries(LoadedExtra(env, file), c.extra);
  }

  lemma SameEntries(m1: map<string, string>, m2: map<string, string>)
    requires forall name :: Lookup(m1, name) == Lookup(m2, name)
    ensures m1 == m2
  {
    forall name
      ensures name in m1 <==> name in m2
      ensures name in m1 ==> m1[name] == m2[name]
    {
      assert Lookup(m1, name) == Lookup(m2, name);
    }
  }

  /** A configuration written to a file, in any order and with or without its defaults, loads back as it was if and
      only if it is valid and restorable, every line fits in the scanner's buffer, and no value has a NUL. */
  lemma SavedConfigLoads(env: Env, bindings: seq<(string, string)>, c: Config, lib: Library)
    requires Printable(bindings) && Unset(env, bindings) && Spells(bindings, c)
    ensures LoadOutcome(env, Some(PrintedFile(bindings)), lib).result == Ok(c) <==>
            && LogProblem(c.log).None? && ConfigProblem(c, lib).None? && Restorable(c, lib)
            && Fits(bindings) && Settable(env, bindings)
  {
    var file := PrintedFile(bindings);
    PrintedLoads(env, bindings);
    LoadsExactly(env, Some(file), lib, c);
    if Fits(bindings) && Settable(env, bindings) && LogProblem(c.log).None? && ConfigProblem(c, lib).None? {
      forall key: Key
        ensures Sources(env, file)(key) == FirstIn(bindings, Name(key))
      {
        PrintedValues(env, bindings, Name(key));
      }
      SettingsRead(Sources(env, file), c, lib);
      ExtraRead(env, bindings, c);
    }
  }

  // ---- Every configuration can be written ----

  function SettingLines(order: seq<Key>, c: Config): seq<(string, string)> {
    if order == [] then [] else [(Name(order[0]), ValueOf(c, order[0]))] + SettingLines(order[1..], c)
  }

  function ExtraLines(names: seq<string>, c: Config): seq<(string, string)>
    requires forall i :: 0 <= i < |names| ==> names[i] in c.extra
  {
    if names == [] then [] else [(names[0], c.extra[names[0]])] + ExtraLines(names[1..], c)
  }

  lemma NameInjective(key1: Key, key2: Key)
    ensures Name(key1) == Name(key2) ==> key1 == key2
  {
  }

  lemma NextIn(first: (string, string), bindings: seq<(string, string)>, name: string)
    ensures FirstIn([first] + bindings, name) == if first.0 == name then Some(first.1) else FirstIn(bindings, name)
  {
  }

  lemma SettingFirst(order: seq<Key>, c: Config, rest: seq<(string, string)>)
    requires order != []
    ensures SettingLines(order, c) + rest
            == [(Name(order[0]), ValueOf(c, order[0]))] + (SettingLines(order[1..], c) + rest)
  {
  }

  lemma {:induction false} SettingFound(order: seq<Key>, c: Config, rest: seq<(string, string)>, key: Key)
    ensures FirstIn(SettingLines(order, c) + rest, Name(key)) == if key in order then Some(ValueOf(c, key))
            else FirstIn(rest, Name(key))
  {
    if order == [] {
      assert SettingLines(order, c) + rest == rest;
    } else {
      SettingFound(order[1..], c, rest, key);
      SettingFirst(order, c, rest);
      NextIn((Name(order[0]), ValueOf(c, order[0])), SettingLines(order[1..], c) + rest, Name(key));
      NameInjective(order[0], key);
    }
  }

  lemma {:induction false} ExtraPassesSettings(order: seq<Key>, c: Config, rest: seq<(string, string)>, name: string)
    requires name !in KNOWN_KEYS
    ensures FirstIn(SettingLines(order, c) + rest, name) == FirstIn(rest, name)
  {
    if order == [] {
      assert SettingLines(order, c) + rest == rest;
    } else {
      ExtraPassesSettings(order[1..], c, rest, name);
      SettingFirst(order, c, rest);
      NextIn((Name(order[0]), ValueOf(c, order[0])), SettingLines(order[1..], c) + rest, name);
      assert Name(order[0]) in KNOWN_KEYS;
    }
  }

  lemma {:induction false} ExtraFound(names: seq<string>, c: Config, name: string)
    requires forall i :: 0 <= i < |names| ==> names[i] in c.extra
    ensures FirstIn(ExtraLines(names, c), name) == if name in names then Lookup(c.extra, name) else None
  {
    if names != [] {
      ExtraFound(names[1..], c, name);
    }
  }

  /** The settings in any order that has them all, and then the extra keys, spell the configuration. */
  lemma LinesSpell(order: seq<Key>, names: seq<string>, c: Config)
    requires forall key: Key :: key in order
    requires forall name :: name in names <==> name in c.extra
    requires c.extra.Keys !! KNOWN_KEYS
    ensures Spells(SettingLines(order, c) + ExtraLines(names, c), c)
  {
    var rest := ExtraLines(names, c);
    forall key: Key
      ensures Stated(FirstIn(SettingLines(order, c) + rest, Name(key)), c, key)
    {
      SettingFound(order, c, rest, key);
    }
    forall name | name !in KNOWN_KEYS
      ensures FirstIn(SettingLines(order, c) + rest, name) == Lookup(c.extra, name)
    {
      ExtraPassesSettings(order, c, rest, name);
      ExtraFound(names, c, name);
    }
  }

  // ---- A blank value that hides the file's ----

  lemma DefaultsLoad(look: Key -> Option<string>)
    requires forall key: Key :: look(key).None? || IsBlank(look(key).value)
    ensures ReadFrom(DEFAULT, look, PLAIN)
  {
    DriverIsKept();
    forall key: Key
      ensures SettingOf(DEFAULT, key) == ValuesFrom(look, PLAIN)(key)
    {
      DefaultRead(DEFAULT, key, PLAIN);
      if look(key).Some? {
        BlankReadsAsNone(key, look(key).value, PLAIN);
      }
    }
  }

  lemma DefaultLogIsValid()
    ensures LogProblem(DEFAULT_LOG).None?
  {
  }

  lemma DefaultIsValid()
    ensures ConfigProblem(DEFAULT, PLAIN).None?
  {
  }

  lemma DefaultRead(defaults: Config, key: Key, lib: Library)
    requires forall s :: lib.lower(s) == s
    requires NormalizeDriver(defaults.log.dbDriver, lib) == defaults.log.dbDriver
    ensures Read(key, None, defaults, lib) == SettingOf(defaults, key)
  {
  }

  lemma DriverIsKept()
    ensures NormalizeDriver(DEFAULT_LOG.dbDriver, PLAIN) == DEFAULT_LOG.dbDriver
  {
  }

  lemma OneBinding(env: Env, name: string, val: string, other: string)
    requires name in env
    ensures Settable(env, [(name, val)])
    ensures FirstIn([(name, val)], other) == if name == other then Some(val) else None
  {
    NextIn((name, val), [], other);
    assert [(name, val)] + [] == [(name, val)];
  }

  lemma OneValue(env: Env, name: string, val: string, other: string)
    requires Printable([(name, val)]) && Fits([(name, val)]) && name in env
    ensures FileValue(env, PrintedFile([(name, val)]), other) == if name == other then Some(val) else None
  {
    OneBinding(env, name, val, other);
    PrintedValues(env, [(name, val)], other);
  }

  lemma SourceAt(env: Env, file: File, key: Key)
    ensures Sources(env, file)(key) == Source(env, file, Name(key))
  {
  }

  lemma HiddenSources(key: Key, blank: string, val: string, env: Env, file: File, other: Key)
    requires Printable([(Name(key), val)]) && Fits([(Name(key), val)])
    requires env == map[Name(key) := blank] && file == PrintedFile([(Name(key), val)])
    ensures Sources(env, file)(other) == if other == key then Some(blank) else None
  {
    SourceAt(env, file, other);
    if other != key {
      OneValue(env, Name(key), val, Name(other));
      NameInjective(other, key);
    }
  }

  /** With a variable set to a blank in the environment and to `val` in the file, the default is loaded, whatever the
      documented order would give. */
  lemma BlankHidesValue(key: Key, blank: string, val: string)
    requires IsBlank(blank) && Printable([(Name(key), val)]) && Fits([(Name(key), val)])
    ensures var env, file := map[Name(key) := blank], PrintedFile([(Name(key), val)]);
            && LoadOutcome(env, Some(file), PLAIN).result == Ok(DEFAULT)
            && Documented(env, file)(key) == Some(val)
  {
    var env, file := map[Name(key) := blank], PrintedFile([(Name(key), val)]);
    forall other: Key
      ensures Sources(env, file)(other) == if other == key then Some(blank) else None
    {
      HiddenSources(key, blank, val, env, file, other);
    }
    OneValue(env, Name(key), val, Name(key));
    DefaultsLoad(Sources(env, file));
    DefaultLogIsValid();
    DefaultIsValid();
    OneBinding(env, Name(key), val, Name(key));
    PrintedLoads(env, [(Name(key), val)]);
    NothingExtra(env, [(Name(key), val)]);
    LoadsExactly(env, Some(file), PLAIN, DEFAULT);
  }

  lemma NothingExtra(env: Env, bindings: seq<(string, string)>)
    requires Printable(bindings) && Fits(bindings) && Settable(env, bindings)
    requires forall i :: 0 <= i < |bindings| ==> bindings[i].0 in KNOWN_KEYS
    ensures LoadedExtra(env, PrintedFile(bindings)) == map[]
  {
    forall name | name in Named(env, PrintedFile(bindings))
      ensures name in KNOWN_KEYS
    {
      PrintedValues(env, bindings, name);
      FirstInBound(bindings, name);
    }
  }

  /** For example, SERVER_NAME set to a blank hides the name in the file. */
  lemma BlankHidesFile()
    ensures var env, file := map["SERVER_NAME" := " "], PrintedFile([("SERVER_NAME", "x")]);
            && LoadOutcome(env, Some(file), PLAIN).result == Ok(DEFAULT)
            && Documented(env, file)(ServerName) == Some("x")
  {
    assert ByteLength("x") == 1;
    BlankHidesValue(ServerName, " ", "x");
  }
}
