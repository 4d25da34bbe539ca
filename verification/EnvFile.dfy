/** The env file loader (config/load.go): lines of KEY=VALUE overlaid on a process environment that already
    has precedence. Text is a sequence of Unicode characters; its length in UTF-8 matters to the scanner. */
module EnvFile {
  import opened Protocol

  type Env = map<string, string>

  // ---- Text ----

  /** White space as Unicode has it, which is what TrimSpace removes. */
  predicate IsSpace(c: char) {
    || '\t' <= c <= '\r' || c == ' ' || c == '\U{85}' || c == '\U{A0}' || c == '\U{1680}'
    || '\U{2000}' <= c <= '\U{200A}' || c == '\U{2028}' || c == '\U{2029}' || c == '\U{202F}' || c == '\U{205F}'
       || c == '\U{3000}'
  }

  function TrimLeft(s: string): (r: string)
    ensures r == [] || !IsSpace(r[0])
    ensures s == [] || !IsSpace(s[0]) ==> r == s
  {
    if s != [] && IsSpace(s[0]) then TrimLeft(s[1..]) else s
  }

  function TrimRight(s: string): (r: string)
    ensures r <= s
    ensures r == [] || !IsSpace(r[|r| - 1])
    ensures s == [] || !IsSpace(s[|s| - 1]) ==> r == s
  {
    if s != [] && IsSpace(s[|s| - 1]) then TrimRight(s[..|s| - 1]) else s
  }

  function TrimSpace(s: string): (r: string)
    ensures r == [] || (!IsSpace(r[0]) && !IsSpace(r[|r| - 1]))
    ensures s == [] || (!IsSpace(s[0]) && !IsSpace(s[|s| - 1])) ==> r == s
  {
    TrimRight(TrimLeft(s))
  }

  function TrimPrefix(s: string, prefix: string): string {
    if prefix <= s then s[|prefix|..] else s
  }

  /** The text before and after the first `sep`, if there is one. */
  function Cut(s: string, sep: char): (r: Option<(string, string)>)
    ensures r.None? <==> sep !in s
    ensures r.Some? ==> s == r.value.0 + [sep] + r.value.1 && sep !in r.value.0
  {
    if s == [] then None
    else if s[0] == sep then Some(([], s[1..]))
    else match Cut(s[1..], sep)
      case None => None
      case Some((before, after)) => Some(([s[0]] + before, after))
  }

  function Unquote(val: string): string {
    if |val| >= 2 && val[0] == val[|val| - 1] && (val[0] == '"' || val[0] == '\'') then val[1..|val| - 1] else val
  }

  predicate IsLetter(c: char) {
    'A' <= c <= 'Z' || 'a' <= c <= 'z' || c == '_'
  }

  /** [A-Za-z_][A-Za-z0-9_]* */
  predicate IsValidKey(key: string) {
    key != [] && forall i :: 0 <= i < |key| ==> IsLetter(key[i]) || (i > 0 && '0' <= key[i] <= '9')
  }

  // ---- The scanner ----

  /** The size of the scanner's buffer, in bytes: a line must leave it some room. */
  const LINE_LIMIT: nat := 1024 * 1024

  function UTF8Length(c: char): nat {
    if c < '\U{80}' then 1 else if c < '\U{800}' then 2 else if c < '\U{10000}' then 3 else 4
  }

  function ByteLength(s: string): nat {
    if s == [] then 0 else UTF8Length(s[0]) + ByteLength(s[1..])
  }

  function DropCR(line: string): string {
    if line != [] && line[|line| - 1] == '\r' then line[..|line| - 1] else line
  }

  /** The pieces of a text: each ends at a newline or at the end. */
  function RawLines(text: string): seq<string>
    decreases |text|
  {
    match Cut(text, '\n')
    case None => if text == "" then [] else [text]
    case Some((line, rest)) => [line] + RawLines(rest)
  }

  /** The first line from `i` on that fills the buffer, or the number of lines. */
  function FirstLong(raw: seq<string>, i: nat): (n: nat)
    requires i <= |raw|
    ensures i <= n <= |raw|
    ensures n < |raw| ==> ByteLength(raw[n]) >= LINE_LIMIT
    ensures forall k :: i <= k < n ==> ByteLength(raw[k]) < LINE_LIMIT
    decreases |raw| - i
  {
    if i == |raw| || ByteLength(raw[i]) >= LINE_LIMIT then i else FirstLong(raw, i + 1)
  }

  datatype Scanned = Scanned(texts: seq<string>, tooLong: bool)

  /** The lines of a text, each without one trailing carriage return, up to the first that is too long. */
  function Scan(text: string): Scanned {
    var raw := RawLines(text);
    var n := FirstLong(raw, 0);
    Scanned(seq(n, i requires 0 <= i < n => DropCR(raw[i])), n < |raw|)
  }

  /** An env file: it cannot be opened, or its text is read until it ends or reading fails. */
  datatype File = Missing | File(text: string, failed: bool)

  // ---- Lines ----

  datatype Line = Blank | NoEquals | EmptyKey | InvalidKey(key: string) | Binding(key: string, val: string)

  const BOM := "\U{FEFF}"

  /** What one line says; a byte order mark is dropped from the first. */
  function ReadLine(text: string, first: bool): (line: Line)
    ensures line.Binding? ==> IsValidKey(line.key)
  {
    var line := TrimSpace(text);
    var line := if first then TrimPrefix(line, BOM) else line;
    if line == "" || "#" <= line then Blank
    else match Cut(TrimPrefix(line, "export "), '=')
      case None => NoEquals
      case Some((before, after)) =>
        var key := TrimSpace(before);
        if key == "" then EmptyKey
        else if !IsValidKey(key) then InvalidKey(key)
        else Binding(key, Unquote(TrimSpace(after)))
  }

  function ReadLines(texts: seq<string>): (lines: seq<Line>)
    ensures |lines| == |texts|
    ensures forall i :: 0 <= i < |texts| ==> lines[i] == ReadLine(texts[i], i == 0)
  {
    seq(|texts|, i requires 0 <= i < |texts| => ReadLine(texts[i], i == 0))
  }

  function LinesOf(file: File): seq<Line> {
    if file.Missing? then [] else ReadLines(Scan(file.text).texts)
  }

  /** Whether the scanner stops with an error when the lines are used up. */
  predicate Broken(file: File) {
    file.File? && (Scan(file.text).tooLong || file.failed)
  }

  /** Why loading stopped; lines are numbered from 1. */
  datatype LoadError =
    | NoError | Unopened
    | Malformed(lineNo: nat, line: Line)
    | SetFailed(key: string)     // the system refuses a value with a NUL
    | ReadFailed

  datatype LoadState = LoadState(fromFile: map<string, string>, skippedOS: map<string, string>)

  // ---- The first binding wins, and the system's own bindings win over all ----

  /** The first binding of each key in the first `n` lines. */
  function FirstBindings(lines: seq<Line>, n: nat): Env
    requires n <= |lines|
  {
    if n == 0 then map[]
    else
      var before := FirstBindings(lines, n - 1);
      match lines[n - 1]
      case Binding(key, val) => if key in before then before else before[key := val]
      case _ => before
  }

  /** The environment after the first `n` lines: what was there, and the first binding of every other key. */
  function Overlay(env: Env, lines: seq<Line>, n: nat): Env
    requires n <= |lines|
  {
    FirstBindings(lines, n) + env
  }

  /** The value that each line tried to give a key that was already set, the last one standing. */
  function Skipped(env: Env, lines: seq<Line>, n: nat): Env
    requires n <= |lines|
  {
    if n == 0 then map[]
    else
      var before := Skipped(env, lines, n - 1);
      match lines[n - 1]
      case Binding(key, val) => if key in Overlay(env, lines, n - 1) then before[key := val] else before
      case _ => before
  }

  /** A line stops the load if it is malformed, or if it would set a key to a value with a NUL. */
  predicate Stops(now: Env, line: Line) {
    match line
    case Blank => false
    case Binding(key, val) => key !in now && '\0' in val
    case _ => true
  }

  function LineError(line: Line, lineNo: nat): LoadError {
    if line.Binding? then SetFailed(line.key) else Malformed(lineNo, line)
  }

  predicate StopsAt(env: Env, lines: seq<Line>, i: nat)
    requires i < |lines|
  {
    Stops(Overlay(env, lines, i), lines[i])
  }

  /** The line at which loading stops, or the number of lines. */
  function StopLine(env: Env, lines: seq<Line>, i: nat): (n: nat)
    requires i <= |lines|
    ensures i <= n <= |lines|
    ensures n < |lines| ==> StopsAt(env, lines, n)
    ensures forall k :: i <= k < n ==> !StopsAt(env, lines, k)
    decreases |lines| - i
  {
    if i == |lines| || StopsAt(env, lines, i) then i else StopLine(env, lines, i + 1)
  }

  function EndError(lines: seq<Line>, n: nat, broken: bool): LoadError
    requires n <= |lines|
  {
    if n < |lines| then LineError(lines[n], n + 1) else if broken then ReadFailed else NoError
  }

  datatype Loaded = Loaded(env: Env, state: LoadState, error: LoadError)

  /** What loading a file comes to. */
  function LoadResult(env: Env, file: File): Loaded {
    if file.Missing? then Loaded(env, LoadState(map[], map[]), Unopened)
    else LinesResult(env, LinesOf(file), Broken(file))
  }

  function LinesResult(env: Env, lines: seq<Line>, broken: bool): Loaded {
    var n := StopLine(env, lines, 0);
    Loaded(Overlay(env, lines, n),
           LoadState(Overlay(env, lines, n) - env.Keys, Skipped(env, lines, n)),
           EndError(lines, n, broken))
  }

  lemma OverlayAdd<K, V>(bindings: map<K, V>, under: map<K, V>, key: K, val: V)
    ensures key in under ==> bindings[key := val] + under == bindings + under
    ensures key !in under ==> bindings[key := val] + under == (bindings + under)[key := val]
    ensures key in under ==> bindings[key := val] - under.Keys == bindings - under.Keys
    ensures key !in under ==> bindings[key := val] - under.Keys == (bindings - under.Keys)[key := val]
  {
  }

  /** What has been read when loading has come to line `i`. */
  ghost predicate ReadTo(before: Env, lines: seq<Line>, i: nat, now: Env, st: LoadState)
    requires i <= |lines|
  {
    && now == Overlay(before, lines, i)
    && st.fromFile == FirstBindings(lines, i) - before.Keys && st.skippedOS == Skipped(before, lines, i)
  }

  /** What taking one line does: it stops the load and changes nothing, passes, is skipped, or sets its key. */
  ghost predicate Takes(now: Env, st: LoadState, line: Line, lineNo: nat,
                        next: Env, after: LoadState, error: LoadError)
  {
    if Stops(now, line) then next == now && after == st && error == LineError(line, lineNo)
    else
      && error == NoError
      && match line
         case Binding(key, val) =>
           if key in now then next == now && after == st.(skippedOS := st.skippedOS[key := val])
           else next == now[key := val] && after == st.(fromFile := st.fromFile[key := val])
         case _ => next == now && after == st
  }

  lemma NextLine(before: Env, lines: seq<Line>, i: nat, now: Env, st: LoadState, next: Env, after: LoadState,
      error: LoadError)
    requires i < |lines| && ReadTo(before, lines, i, now, st) && Takes(now, st, lines[i], i + 1, next, after, error)
    requires i <= StopLine(before, lines, 0)
    ensures if error == NoError then i + 1 <= StopLine(before, lines, 0) && ReadTo(before, lines, i + 1, next, after)
            else
              && i == StopLine(before, lines, 0) && ReadTo(before, lines, i, next, after)
              && error == LineError(lines[i], i + 1)
  {
    assert StopsAt(before, lines, i) <==> i == StopLine(before, lines, 0);
    if lines[i].Binding? {
      OverlayAdd(FirstBindings(lines, i), before, lines[i].key, lines[i].val);
    }
  }

  /** Where loading stops, what has been read is the result. */
  lemma ResultAt(before: Env, lines: seq<Line>, broken: bool, n: nat, now: Env, st: LoadState)
    requires n == StopLine(before, lines, 0) && ReadTo(before, lines, n, now, st)
    ensures LinesResult(before, lines, broken) == Loaded(now, st, EndError(lines, n, broken))
  {
  }

  // ---- The loader ----

  /** The process environment. */
  class Process {
    var env: Env

    constructor (env: Env)
      ensures this.env == env
    {
      this.env := env;
    }

    method Setenv(key: string, val: string) returns (ok: bool)
      modifies this
      ensures ok <==> '\0' !in val
      ensures ok ==> env == old(env)[key := val]
      ensures !ok ==> env == old(env)
    {
      ok := '\0' !in val;
      if ok {
        env := env[key := val];
      }
    }

    /** Takes one line: passes over it, skips a key that is already set, sets a new one, or fails. */
    method TakeLine(before: LoadState, line: Line, lineNo: nat) returns (st: LoadState, error: LoadError)
      modifies this
      ensures Takes(old(env), before, line, lineNo, env, st, error)
    {
      st, error := before, NoError;
      match line
      case Blank =>
      case NoEquals | EmptyKey | InvalidKey(_) =>
        error := Malformed(lineNo, line);
      case Binding(key, val) =>
        if key in env {
          st := st.(skippedOS := st.skippedOS[key := val]);
        } else {
          var ok := Setenv(key, val);
          if ok {
            st := st.(fromFile := st.fromFile[key := val]);
          } else {
            error := SetFailed(key);
          }
        }
    }

    /** Takes lines until one stops the load or none is left. */
    method TakeLines(texts: seq<string>) returns (st: LoadState, error: LoadError, ghost stop: nat)
      modifies this
      ensures stop == StopLine(old(env), ReadLines(texts), 0)
      ensures ReadTo(old(env), ReadLines(texts), stop, env, st)
      ensures error == EndError(ReadLines(texts), stop, false)
    {
      st, error := LoadState(map[], map[]), NoError;
      ghost var lines := ReadLines(texts);
      var lineNo := 0;
      while lineNo < |texts|
        invariant lineNo <= StopLine(old(env), lines, 0) <= |lines|
        invariant ReadTo(old(env), lines, lineNo, env, st) && error == NoError
      {
        var line := ReadLine(texts[lineNo], lineNo == 0);
        ghost var now, was := env, st;
        st, error := TakeLine(st, line, lineNo + 1);
        NextLine(old(env), lines, lineNo, now, was, env, st, error);
        if error != NoError {
          stop := lineNo;
          return;
        }
        lineNo := lineNo + 1;
      }
      stop := lineNo;
    }

    method LoadFile(file: File) returns (st: LoadState, error: LoadError)
      modifies this
      ensures Loaded(env, st, error) == LoadResult(old(env), file)
    {
      if file.Missing? {
        return LoadState(map[], map[]), Unopened;
      }
      var scanned := Scan(file.text);
      ghost var stop;
      st, error, stop := TakeLines(scanned.texts);
      if error == NoError && (scanned.tooLong || file.failed) {
        error := ReadFailed;
      }
      ResultAt(old(env), LinesOf(file), Broken(file), stop, env, st);
    }
  }

  // ---- What loading means, key by key ----

  ghost predicate BoundAt(lines: seq<Line>, i: nat, key: string) {
    i < |lines| && lines[i].Binding? && lines[i].key == key
  }

  /** A key is bound by the first line that binds it, and only by that. */
  lemma {:induction false} FirstWins(lines: seq<Line>, n: nat, key: string)
    requires n <= |lines|
    ensures key in FirstBindings(lines, n) <==> exists i :: 0 <= i < n && BoundAt(lines, i, key)
    ensures forall i :: 0 <= i < n && BoundAt(lines, i, key) && (forall j :: 0 <= j < i ==> !BoundAt(lines, j, key))
              ==> key in FirstBindings(lines, n) && FirstBindings(lines, n)[key] == lines[i].val
  {
    if n > 0 {
      FirstWins(lines, n - 1, key);
      assert BoundAt(lines, n - 1, key) <==> lines[n - 1].Binding? && lines[n - 1].key == key;
      if i :| 0 <= i < n && BoundAt(lines, i, key) {
        assert i == n - 1 || (0 <= i < n - 1 && BoundAt(lines, i, key));
      }
    }
  }

  function Lookup(env: Env, key: string): Option<string> {
    if key in env then Some(env[key]) else None
  }

  /** The first binding of a key in the lines from `i` up to `n`. */
  function FirstValue(lines: seq<Line>, i: nat, n: nat, key: string): Option<string>
    requires i <= n <= |lines|
    decreases n - i
  {
    if i == n then None
    else if lines[i].Binding? && lines[i].key == key then Some(lines[i].val)
    else FirstValue(lines, i + 1, n, key)
  }

  /** What the file has for a key: its first binding before loading stops. */
  function FileValue(env: Env, file: File, key: string): Option<string> {
    FirstValue(LinesOf(file), 0, StopLine(env, LinesOf(file), 0), key)
  }

  /** The value a key has once the file is loaded: the system's if it has one, else the file's first. */
  function Source(env: Env, file: File, key: string): Option<string> {
    if key in env then Some(env[key]) else FileValue(env, file, key)
  }

  lemma {:induction false} FirstValueFound(lines: seq<Line>, i: nat, n: nat, key: string)
    requires i <= n <= |lines|
    requires key !in FirstBindings(lines, i)
    ensures FirstValue(lines, i, n, key) == Lookup(FirstBindings(lines, n), key)
    decreases n - i
  {
    if i < n {
      if key in FirstBindings(lines, i + 1) {
        FirstBindingKept(lines, i + 1, n, key);
      } else {
        FirstValueFound(lines, i + 1, n, key);
      }
    }
  }

  lemma {:induction false} FirstBindingKept(lines: seq<Line>, i: nat, n: nat, key: string)
    requires i <= n <= |lines| && key in FirstBindings(lines, i)
    ensures Lookup(FirstBindings(lines, n), key) == Lookup(FirstBindings(lines, i), key)
  {
    if i < n {
      FirstBindingKept(lines, i, n - 1, key);
    }
  }

  /** Loading leaves each key with the value of its source, and any other key as it was. */
  lemma SourceIsFound(env: Env, file: File, key: string)
    ensures Lookup(LoadResult(env, file).env, key) == Source(env, file, key)
  {
    FirstValueFound(LinesOf(file), 0, StopLine(env, LinesOf(file), 0), key);
  }

  // ---- Loading again ----

  lemma {:induction false} FirstBindingsGrow(lines: seq<Line>, i: nat, n: nat)
    requires i <= n <= |lines|
    ensures FirstBindings(lines, i).Keys <= FirstBindings(lines, n).Keys
  {
    if i < n {
      FirstBindingsGrow(lines, i, n - 1);
    }
  }

  lemma OverlayOnItself<K, V>(bindings: map<K, V>, under: map<K, V>)
    requires bindings.Keys <= under.Keys
    ensures bindings + under == under
  {
  }

  lemma OverlayAgain(env: Env, lines: seq<Line>, i: nat, n: nat)
    requires i <= n <= |lines|
    ensures Overlay(Overlay(env, lines, n), lines, i) == Overlay(env, lines, n)
  {
    FirstBindingsGrow(lines, i, n);
    OverlayOnItself(FirstBindings(lines, i), Overlay(env, lines, n));
  }

  /** A second load stops where the first one did. */
  lemma StopsAgain(env: Env, lines: seq<Line>, i: nat)
    requires i <= StopLine(env, lines, 0) && i < |lines|
    ensures StopsAt(Overlay(env, lines, StopLine(env, lines, 0)), lines, i) <==> StopsAt(env, lines, i)
  {
  }

  lemma StopLineAgain(env: Env, lines: seq<Line>)
    ensures StopLine(Overlay(env, lines, StopLine(env, lines, 0)), lines, 0) == StopLine(env, lines, 0)
  {
    var n := StopLine(env, lines, 0);
    var after := Overlay(env, lines, n);
    var m := StopLine(after, lines, 0);
    if m < n {
      StopsAgain(env, lines, m);
    } else if n < m {
      StopsAgain(env, lines, n);
    }
  }

  lemma {:induction false} SkippedAgain(env: Env, lines: seq<Line>, i: nat, n: nat)
    requires i <= n <= |lines|
    ensures Skipped(Overlay(env, lines, n), lines, i).Keys == FirstBindings(lines, i).Keys
  {
    if i > 0 {
      SkippedAgain(env, lines, i - 1, n);
      OverlayAgain(env, lines, i - 1, n);
      FirstBindingsGrow(lines, i, n);
    }
  }

  /** Loading a file again changes nothing and reports the same error, although every key that the file binds
      now counts as skipped. */
  lemma LoadingAgain(env: Env, file: File)
    ensures var once := LoadResult(env, file);
            var twice := LoadResult(once.env, file);
            && twice.env == once.env && twice.error == once.error
            && twice.state.fromFile == map[]
            && twice.state.skippedOS.Keys == Named(env, file)
  {
    var lines := LinesOf(file);
    var n := StopLine(env, lines, 0);
    StopLineAgain(env, lines);
    OverlayAgain(env, lines, n, n);
    SkippedAgain(env, lines, n, n);
  }

  /** The keys that the file binds before loading stops. */
  function Named(env: Env, file: File): set<string> {
    FirstBindings(LinesOf(file), StopLine(env, LinesOf(file), 0)).Keys
  }

  /** Each named key is either newly set or skipped. */
  lemma {:induction false} NamedKeys(env: Env, lines: seq<Line>, n: nat)
    requires n <= |lines|
    ensures FirstBindings(lines, n).Keys == (Overlay(env, lines, n) - env.Keys).Keys + Skipped(env, lines, n).Keys
  {
    if n > 0 {
      NamedKeys(env, lines, n - 1);
    }
  }

  // ---- Which keys are skipped ----

  /** A line that binds `key` when the system or an earlier line has it already. */
  ghost predicate BoundLate(env: Env, lines: seq<Line>, i: nat, key: string) {
    BoundAt(lines, i, key) && (key in env || exists j: nat :: j < i && BoundAt(lines, j, key))
  }

  lemma {:induction false} SkippedAreLate(env: Env, lines: seq<Line>, n: nat, key: string)
    requires n <= |lines|
    ensures key in Skipped(env, lines, n) <==> exists i: nat :: i < n && BoundLate(env, lines, i, key)
  {
    if n > 0 {
      SkippedAreLate(env, lines, n - 1, key);
      FirstWins(lines, n - 1, key);
      if j :| 0 <= j < n - 1 && BoundAt(lines, j, key) {
        var j': nat := j;
        assert j' < n - 1 && BoundAt(lines, j', key);
      }
      assert BoundLate(env, lines, n - 1, key) <==> BoundAt(lines, n - 1, key) && key in Overlay(env, lines, n - 1);
      if i: nat :| i < n && BoundLate(env, lines, i, key) {
        assert i == n - 1 || i < n - 1;
      }
    }
  }

  /** A key is reported as skipped exactly when the system had it and the file binds it, or the file binds it
      more than once. */
  lemma SkippedExactly(env: Env, file: File, key: string)
    ensures key in LoadResult(env, file).state.skippedOS
            <==> exists i: nat :: i < StopLine(env, LinesOf(file), 0) && BoundLate(env, LinesOf(file), i, key)
  {
    SkippedAreLate(env, LinesOf(file), StopLine(env, LinesOf(file), 0), key);
  }

  /** A file that binds a key twice: the second value is reported as skipped, though no system value was in its way. */
  lemma BoundTwice(key: string, val1: string, val2: string)
    requires Printable([(key, val1), (key, val2)]) && Fits([(key, val1), (key, val2)])
    requires '\0' !in val1
    ensures LoadResult(map[], PrintedFile([(key, val1), (key, val2)]))
         == Loaded(map[key := val1], LoadState(map[key := val1], map[key := val2]), NoError)
  {
    var bindings := [(key, val1), (key, val2)];
    var lines := LinesOf(PrintedFile(bindings));
    PrintedRoundTrip(bindings);
    assert lines == [Binding(key, val1), Binding(key, val2)];
    TwoBindings(lines, key, val1, val2);
  }

  /** So a key that the system never had can be reported as one that it had. */
  lemma SkippedWithoutSystem()
    ensures LoadResult(map[], PrintedFile([("A", "1"), ("A", "2")]))
         == Loaded(map["A" := "1"], LoadState(map["A" := "1"], map["A" := "2"]), NoError)
  {
    assert ByteLength("1") == ByteLength("2") == 1;
    BoundTwice("A", "1", "2");
  }

  lemma TwoBindings(lines: seq<Line>, key: string, val1: string, val2: string)
    requires lines == [Binding(key, val1), Binding(key, val2)] && '\0' !in val1
    ensures LinesResult(map[], lines, false)
         == Loaded(map[key := val1], LoadState(map[key := val1], map[key := val2]), NoError)
  {
    assert FirstBindings(lines, 1) == map[key := val1] && FirstBindings(lines, 2) == map[key := val1];
    assert Overlay(map[], lines, 0) == map[] && Overlay(map[], lines, 1) == map[key := val1];
    assert Skipped(map[], lines, 1) == map[] && Skipped(map[], lines, 2) == map[key := val2];
    assert !StopsAt(map[], lines, 0) && !StopsAt(map[], lines, 1);
    assert StopLine(map[], lines, 0) == 2;
  }

  // ---- Printing a file that loads back ----

  function PrintLine(key: string, val: string): string {
    key + "=\"" + val + "\""
  }

  lemma {:induction false} CutAt(before: string, sep: char, after: string)
    requires sep !in before
    ensures Cut(before + [sep] + after, sep) == Some((before, after))
  {
    var s := before + [sep] + after;
    if before == [] {
      assert s[0] == sep && s[1..] == after;
    } else {
      assert s[0] == before[0] != sep;
      assert s[1..] == before[1..] + [sep] + after;
      CutAt(before[1..], sep, after);
      assert [before[0]] + before[1..] == before;
    }
  }

  /** A quoted line reads back as its key and value, whatever the value holds. */
  lemma ReadPrinted(key: string, val: string, first: bool)
    requires IsValidKey(key)
    ensures ReadLine(PrintLine(key, val), first) == Binding(key, val)
  {
    var line, quoted := PrintLine(key, val), "\"" + val + "\"";
    PrintedEnds(key, val);
    KeyIsTrim(key);
    NoExport(key, quoted);
    assert line == key + ['='] + quoted;
    CutAt(key, '=', quoted);
    QuotedReads(val);
  }

  lemma PrintedEnds(key: string, val: string)
    requires IsValidKey(key)
    ensures var line := PrintLine(key, val);
            TrimSpace(line) == line && line != "" && !(BOM <= line) && !("#" <= line)
  {
  }

  lemma KeyIsTrim(key: string)
    requires IsValidKey(key)
    ensures TrimSpace(key) == key && ' ' !in key && '=' !in key && '\n' !in key
  {
  }

  lemma QuotedReads(val: string)
    ensures var quoted := "\"" + val + "\""; TrimSpace(quoted) == quoted && Unquote(quoted) == val
  {
  }

  lemma NoExport(key: string, rest: string)
    requires ' ' !in key && '=' !in key
    ensures !("export " <= key + "=" + rest)
  {
    var line, prefix := key + "=" + rest, "export ";
    var i := if |key| <= 6 then |key| else 6;
    assert line[i] != prefix[i];
  }

  function PrintText(bindings: seq<(string, string)>): string {
    if bindings == [] then ""
    else PrintLine(bindings[0].0, bindings[0].1) + "\n" + PrintText(bindings[1..])
  }

  ghost predicate Printable(bindings: seq<(string, string)>) {
    forall i :: 0 <= i < |bindings| ==> IsValidKey(bindings[i].0) && '\n' !in bindings[i].1
  }

  lemma RawLineFirst(line: string, rest: string)
    requires '\n' !in line
    ensures RawLines(line + "\n" + rest) == [line] + RawLines(rest)
  {
    CutAt(line, '\n', rest);
  }

  lemma PrintedHasNoNewline(key: string, val: string)
    requires IsValidKey(key) && '\n' !in val
    ensures '\n' !in PrintLine(key, val)
  {
    KeyIsTrim(key);
  }

  lemma {:induction false} PrintedLines(bindings: seq<(string, string)>)
    requires Printable(bindings)
    ensures |RawLines(PrintText(bindings))| == |bindings|
    ensures forall i :: 0 <= i < |bindings| ==>
              RawLines(PrintText(bindings))[i] == PrintLine(bindings[i].0, bindings[i].1)
  {
    if bindings != [] {
      var line := PrintLine(bindings[0].0, bindings[0].1);
      assert Printable(bindings[1..]);
      PrintedLines(bindings[1..]);
      PrintedHasNoNewline(bindings[0].0, bindings[0].1);
      RawLineFirst(line, PrintText(bindings[1..]));
    }
  }

  function PrintedFile(bindings: seq<(string, string)>): File {
    File(PrintText(bindings), false)
  }

  /** Every line, with its '=' and its two quotes, leaves room in the scanner's buffer. */
  ghost predicate Fits(bindings: seq<(string, string)>) {
    forall i :: 0 <= i < |bindings| ==> |bindings[i].0| + 3 + ByteLength(bindings[i].1) < 1048576
  }

  lemma {:induction false} ByteLengthConcat(a: string, b: string)
    ensures ByteLength(a + b) == ByteLength(a) + ByteLength(b)
  {
    if a == [] {
      assert a + b == b;
    } else {
      assert (a + b)[1..] == a[1..] + b;
      ByteLengthConcat(a[1..], b);
    }
  }

  lemma {:induction false} KeyByteLength(key: string)
    requires forall i :: 0 <= i < |key| ==> key[i] < '\U{80}'
    ensures ByteLength(key) == |key|
  {
    if key != [] {
      KeyByteLength(key[1..]);
    }
  }

  lemma PrintedLength(key: string, val: string)
    requires IsValidKey(key)
    ensures ByteLength(PrintLine(key, val)) == |key| + 3 + ByteLength(val)
  {
    KeyByteLength(key);
    ByteLengthConcat(key, "=\"");
    ByteLengthConcat(key + "=\"", val);
    ByteLengthConcat(key + "=\"" + val, "\"");
    assert ByteLength("\"") == 1 && ByteLength("=\"") == 2;
  }

  /** The scanner takes a printed text to its lines, up to the first that is too long. */
  lemma PrintedScan(bindings: seq<(string, string)>)
    requires Printable(bindings)
    ensures var scanned := Scan(PrintText(bindings));
            && (scanned.tooLong <==> !Fits(bindings))
            && (|scanned.texts| == |bindings| <==> Fits(bindings)) && |scanned.texts| <= |bindings|
            && forall i :: 0 <= i < |scanned.texts| ==> scanned.texts[i] == PrintLine(bindings[i].0, bindings[i].1)
  {
    PrintedLines(bindings);
    forall i | 0 <= i < |bindings|
      ensures var line := PrintLine(bindings[i].0, bindings[i].1);
              ByteLength(line) == |bindings[i].0| + 3 + ByteLength(bindings[i].1) && DropCR(line) == line
    {
      PrintedLength(bindings[i].0, bindings[i].1);
    }
  }

  ghost predicate ReadsAs(lines: seq<Line>, bindings: seq<(string, string)>) {
    && |lines| == |bindings|
    && forall i :: 0 <= i < |bindings| ==> lines[i] == Binding(bindings[i].0, bindings[i].1)
  }

  /** A printed file reads back, as far as it fits: all of it exactly when every line does. */
  lemma PrintedRoundTrip(bindings: seq<(string, string)>)
    requires Printable(bindings)
    ensures var lines := LinesOf(PrintedFile(bindings));
            && |lines| <= |bindings| && ReadsAs(lines, bindings[..|lines|])
            && (ReadsAs(lines, bindings) <==> Fits(bindings))
    ensures Broken(PrintedFile(bindings)) <==> !Fits(bindings)
  {
    var lines := LinesOf(PrintedFile(bindings));
    PrintedScan(bindings);
    forall i | 0 <= i < |lines|
      ensures lines[i] == Binding(bindings[i].0, bindings[i].1)
    {
      ReadPrinted(bindings[i].0, bindings[i].1, i == 0);
    }
  }

  /** The i-th binding would be the one to set its key, and its value has a NUL. */
  ghost predicate Unsettable(env: Env, bindings: seq<(string, string)>, i: nat)
    requires i < |bindings|
  {
    '\0' in bindings[i].1 && bindings[i].0 !in env && forall j :: 0 <= j < i ==> bindings[j].0 != bindings[i].0
  }

  ghost predicate Settable(env: Env, bindings: seq<(string, string)>) {
    forall i: nat :: i < |bindings| ==> !Unsettable(env, bindings, i)
  }

  /** Loading it succeeds exactly when every line fits and no value with a NUL would have to be set. */
  lemma PrintedLoads(env: Env, bindings: seq<(string, string)>)
    requires Printable(bindings)
    ensures LoadResult(env, PrintedFile(bindings)).error == NoError <==> Fits(bindings) && Settable(env, bindings)
  {
    PrintedRoundTrip(bindings);
    if Fits(bindings) {
      PrintedStops(env, bindings, LinesOf(PrintedFile(bindings)));
    }
  }

  /** The value that a list of bindings gives a name. */
  function FirstIn(bindings: seq<(string, string)>, name: string): Option<string> {
    if bindings == [] then None
    else if bindings[0].0 == name then Some(bindings[0].1)
    else FirstIn(bindings[1..], name)
  }

  lemma {:induction false} FirstInLines(lines: seq<Line>, bindings: seq<(string, string)>, i: nat, name: string)
    requires ReadsAs(lines, bindings) && i <= |bindings|
    ensures FirstValue(lines, i, |lines|, name) == FirstIn(bindings[i..], name)
    decreases |bindings| - i
  {
    if i < |bindings| {
      FirstInLines(lines, bindings, i + 1, name);
      assert bindings[i..][1..] == bindings[i + 1..];
    }
  }

  /** A printed file that loads gives each name what its bindings give it first. */
  lemma PrintedValues(env: Env, bindings: seq<(string, string)>, name: string)
    requires Printable(bindings) && Fits(bindings) && Settable(env, bindings)
    ensures FileValue(env, PrintedFile(bindings), name) == FirstIn(bindings, name)
    ensures name in Named(env, PrintedFile(bindings)) <==> FirstIn(bindings, name).Some?
  {
    var lines := LinesOf(PrintedFile(bindings));
    PrintedRoundTrip(bindings);
    PrintedStops(env, bindings, lines);
    FirstInLines(lines, bindings, 0, name);
    FirstValueFound(lines, 0, |lines|, name);
    assert bindings[0..] == bindings;
  }

  lemma PrintedStops(env: Env, bindings: seq<(string, string)>, lines: seq<Line>)
    requires ReadsAs(lines, bindings)
    ensures StopLine(env, lines, 0) == |lines| <==> Settable(env, bindings)
  {
    forall i: nat | i < |bindings|
      ensures StopsAt(env, lines, i) <==> Unsettable(env, bindings, i)
    {
      PrintedStop(env, bindings, lines, i);
    }
  }

  lemma PrintedStop(env: Env, bindings: seq<(string, string)>, lines: seq<Line>, i: nat)
    requires ReadsAs(lines, bindings) && i < |bindings|
    ensures StopsAt(env, lines, i) <==> Unsettable(env, bindings, i)
  {
    var key := bindings[i].0;
    FirstWins(lines, i, key);
    forall j: nat | j < i
      ensures BoundAt(lines, j, key) <==> bindings[j].0 == key
    {
    }
  }
}
