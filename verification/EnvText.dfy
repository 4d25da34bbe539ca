/** Env files as people write them: comments, blanks, `export`, quotes or none (config/load.go), and what loading
    them does. */
module EnvText {
  import opened Protocol
  import opened EnvFile

  // ---- Trimming ----

  predicate AllBlank(s: string) {
    forall i :: 0 <= i < |s| ==> IsSpace(s[i])
  }

  predicate IsTrim(s: string) {
    s == "" || (!IsSpace(s[0]) && !IsSpace(s[|s| - 1]))
  }

  lemma {:induction false} TrimLeftBlank(blank: string, s: string)
    requires AllBlank(blank)
    ensures TrimLeft(blank + s) == TrimLeft(s)
  {
    if blank == "" {
      assert blank + s == s;
    } else {
      assert (blank + s)[1..] == blank[1..] + s;
      TrimLeftBlank(blank[1..], s);
    }
  }

  lemma {:induction false} TrimRightBlank(s: string, blank: string)
    requires AllBlank(blank)
    ensures TrimRight(s + blank) == TrimRight(s)
  {
    if blank == "" {
      assert s + blank == s;
    } else {
      assert (s + blank)[..|s + blank| - 1] == s + blank[..|blank| - 1];
      TrimRightBlank(s, blank[..|blank| - 1]);
    }
  }

  /** Blanks around a trimmed text go, and nothing else. */
  lemma TrimExactly(before: string, s: string, after: string)
    requires AllBlank(before) && AllBlank(after) && IsTrim(s)
    ensures TrimSpace(before + s + after) == s
  {
    assert before + s + after == before + (s + after);
    TrimLeftBlank(before, s + after);
    if s == "" {
      assert s + after == after + "";
      TrimLeftBlank(after, "");
    } else {
      assert TrimLeft(s + after) == s + after;
      TrimRightBlank(s, after);
    }
  }

  // ---- What one line says ----

  datatype Quote = Bare | Single | Double

  function Quoted(quote: Quote, val: string): string {
    match quote
    case Bare => val
    case Single => "'" + val + "'"
    case Double => "\"" + val + "\""
  }

  /** A text that starts and ends with the same quote loses it on reading. */
  predicate IsWrapped(s: string) {
    |s| >= 2 && s[0] == s[|s| - 1] && (s[0] == '"' || s[0] == '\'')
  }

  lemma QuotesGo(quote: Quote, val: string)
    requires quote.Bare? ==> IsTrim(val) && !IsWrapped(val)
    ensures IsTrim(Quoted(quote, val)) && Unquote(Quoted(quote, val)) == val
  {
    var s := Quoted(quote, val);
    assert !quote.Bare? ==> s[1..|s| - 1] == val;
  }

  /** A line of an env file, with the blanks that its writer may have put in it. */
  datatype Item =
    | Remark(before: string, text: string, after: string)
    | Setting(before: string, exported: bool, gap: string, key: string, left: string, right: string,
              quote: Quote, val: string, after: string)

  predicate WellFormed(item: Item) {
    && AllBlank(item.before) && AllBlank(item.after)
    && match item
       case Remark(_, text, _) => IsTrim(text) && (text == "" || text[0] == '#')
       case Setting(_, exported, gap, key, left, right, quote, val, _) =>
         && AllBlank(gap) && (!exported ==> gap == "") && AllBlank(left) && AllBlank(right)
         && IsValidKey(key) && (quote.Bare? ==> IsTrim(val) && !IsWrapped(val))
  }

  /** The line without the blanks around it. */
  function Core(item: Item): string {
    match item
    case Remark(_, text, _) => text
    case Setting(_, exported, gap, key, left, right, quote, val, _) =>
      (if exported then "export " + gap else "") + key + left + "="
      + (if Quoted(quote, val) == "" then "" else right + Quoted(quote, val))
  }

  /** A first line may start with a byte order mark. */
  function Render(item: Item, marked: bool): string {
    item.before + ((if marked then "\U{FEFF}" else "") + Core(item))
    + (if item.Setting? && Quoted(item.quote, item.val) == "" then item.right + item.after else item.after)
  }

  /** A variable called `export` that is set off from its '=' by a space is taken for the keyword. */
  predicate IsMistaken(item: Item) {
    item.Setting? && !item.exported && item.key == "export" && item.left != "" && item.left[0] == ' '
  }

  function Meaning(item: Item): Line {
    match item
    case Remark(_, _, _) => Blank
    case Setting(_, _, _, key, _, _, _, val, _) => Binding(key, val)
  }

  lemma CoreIsTrim(item: Item)
    requires WellFormed(item)
    ensures IsTrim(Core(item)) && !("\U{FEFF}" <= Core(item))
    ensures item.Setting? ==> Core(item) != "" && Core(item)[0] != '#'
  {
    if item.Setting? {
      var core := Core(item);
      QuotesGo(item.quote, item.val);
      assert IsLetter(item.key[0]);
      assert core[0] == if item.exported then 'e' else item.key[0];
      var value := Quoted(item.quote, item.val);
      assert core[|core| - 1] == if value == "" then '=' else value[|value| - 1];
    }
  }

  lemma RenderTrims(item: Item, marked: bool)
    requires WellFormed(item)
    ensures TrimSpace(Render(item, marked)) == (if marked then "\U{FEFF}" else "") + Core(item)
  {
    CoreIsTrim(item);
    var line := (if marked then "\U{FEFF}" else "") + Core(item);
    assert IsTrim(line);
    if item.Setting? && Quoted(item.quote, item.val) == "" {
      TrimExactly(item.before, line, item.right + item.after);
    } else {
      TrimExactly(item.before, line, item.after);
    }
  }

  /** The part of a setting before its '=', once the keyword is gone. */
  function KeyPart(item: Item): string
    requires item.Setting?
  {
    if IsMistaken(item) then item.left[1..] else item.gap + item.key + item.left
  }

  function ValuePart(item: Item): string
    requires item.Setting?
  {
    if Quoted(item.quote, item.val) == "" then "" else item.right + Quoted(item.quote, item.val)
  }

  lemma KeywordGoesFrom(rest: string)
    ensures TrimPrefix("export " + rest, "export ") == rest
  {
    assert ("export " + rest)[|"export "|..] == rest;
  }

  lemma ExportedCore(item: Item)
    requires WellFormed(item) && item.Setting? && item.exported
    ensures Core(item) == "export " + (KeyPart(item) + "=" + ValuePart(item))
  {
  }

  lemma KeywordGoes(item: Item)
    requires WellFormed(item) && item.Setting?
    ensures TrimPrefix(Core(item), "export ") == KeyPart(item) + "=" + ValuePart(item)
  {
    if item.exported {
      ExportedCore(item);
      KeywordGoesFrom(KeyPart(item) + "=" + ValuePart(item));
    } else {
      BareKeywordGoes(item);
    }
  }

  lemma BareCore(item: Item)
    requires WellFormed(item) && item.Setting? && !item.exported
    ensures Core(item) == item.key + item.left + ("=" + ValuePart(item))
    ensures IsMistaken(item) ==> Core(item) == "export " + (KeyPart(item) + "=" + ValuePart(item))
    ensures !IsMistaken(item) ==> Core(item) == KeyPart(item) + "=" + ValuePart(item)
  {
  }

  lemma BareKeywordGoes(item: Item)
    requires WellFormed(item) && item.Setting? && !item.exported
    ensures TrimPrefix(Core(item), "export ") == KeyPart(item) + "=" + ValuePart(item)
  {
    BareCore(item);
    BareKeyword(item.key, item.left, "=" + ValuePart(item));
    if IsMistaken(item) {
      KeywordGoesFrom(KeyPart(item) + "=" + ValuePart(item));
    }
  }

  const KEYWORD := "export "

  lemma BareKeyword(key: string, left: string, rest: string)
    requires IsValidKey(key) && AllBlank(left) && rest != "" && rest[0] == '='
    ensures KEYWORD <= key + left + rest <==> key == "export" && left != "" && left[0] == ' '
  {
    var line := key + left + rest;
    KeyIsTrim(key);
    if |key| < 6 {
      assert line[|key|] == if left == "" then '=' else left[0];
      assert line[|key|] != KEYWORD[|key|];
    } else if |key| > 6 {
      assert line[6] != KEYWORD[6];
    } else {
      assert line[6] == if left == "" then '=' else left[0];
      assert line[..6] == key && KEYWORD[..6] == "export";
      if key == "export" && line[6] == ' ' {
        assert line[..7] == KEYWORD;
      }
    }
  }

  lemma KeyPartHasNoEquals(item: Item)
    requires WellFormed(item) && item.Setting?
    ensures '=' !in KeyPart(item)
    ensures TrimSpace(KeyPart(item)) == if IsMistaken(item) then "" else item.key
  {
    KeyIsTrim(item.key);
    if IsMistaken(item) {
      TrimExactly(item.left[1..], "", "");
      assert item.left[1..] + "" + "" == item.left[1..];
    } else {
      assert IsTrim(item.key) by {
        assert IsLetter(item.key[0]);
      }
      TrimExactly(item.gap, item.key, item.left);
    }
  }

  lemma ValuePartReads(item: Item)
    requires WellFormed(item) && item.Setting?
    ensures Unquote(TrimSpace(ValuePart(item))) == item.val
  {
    var value := Quoted(item.quote, item.val);
    QuotesGo(item.quote, item.val);
    if value != "" {
      TrimExactly(item.right, value, "");
      assert item.right + value + "" == ValuePart(item);
    }
  }

  /** The line, once trimmed and without a byte order mark, that is read. */
  function Stripped(text: string, first: bool): string {
    if first then TrimPrefix(TrimSpace(text), BOM) else TrimSpace(text)
  }

  lemma SettingReads(text: string, first: bool, k: string, v: string)
    requires Stripped(text, first) != "" && Stripped(text, first)[0] != '#' && '=' !in k
    requires TrimPrefix(Stripped(text, first), "export ") == k + "=" + v
    ensures TrimSpace(k) == "" ==> ReadLine(text, first) == EmptyKey
    ensures TrimSpace(k) != "" && !IsValidKey(TrimSpace(k)) ==> ReadLine(text, first) == InvalidKey(TrimSpace(k))
    ensures IsValidKey(TrimSpace(k)) ==> ReadLine(text, first) == Binding(TrimSpace(k), Unquote(TrimSpace(v)))
  {
    assert k + "=" + v == k + ['='] + v;
    CutAt(k, '=', v);
  }

  /** A line without '=' that is neither blank nor a remark is malformed. */
  lemma NoEqualsReads(text: string, first: bool)
    requires Stripped(text, first) != "" && Stripped(text, first)[0] != '#' && '=' !in Stripped(text, first)
    ensures ReadLine(text, first) == NoEquals
  {
  }

  lemma RenderStrips(item: Item, marked: bool, first: bool)
    requires WellFormed(item) && (marked ==> first)
    ensures Stripped(Render(item, marked), first) == Core(item)
  {
    RenderTrims(item, marked);
    CoreIsTrim(item);
    if marked {
      assert ("\U{FEFF}" + Core(item))[1..] == Core(item);
    }
  }

  /** A line means what its writer meant, whatever blanks, keyword, quotes or byte order mark it has, except that a
      variable called `export` can be mistaken for the keyword. */
  lemma ReadItem(item: Item, marked: bool, first: bool)
    requires WellFormed(item) && (marked ==> first)
    ensures ReadLine(Render(item, marked), first) == if IsMistaken(item) then EmptyKey else Meaning(item)
  {
    RenderStrips(item, marked, first);
    CoreIsTrim(item);
    if item.Setting? {
      KeywordGoes(item);
      KeyPartHasNoEquals(item);
      ValuePartReads(item);
      SettingReads(Render(item, marked), first, KeyPart(item), ValuePart(item));
    }
  }

  // ---- A whole file ----

  /** The text of lines: each ends with a newline, except perhaps the last. */
  function Joined(lines: seq<string>, ended: bool): string {
    if lines == [] then ""
    else if |lines| == 1 && !ended then lines[0]
    else lines[0] + "\n" + Joined(lines[1..], ended)
  }

  ghost predicate AreLines(lines: seq<string>, ended: bool) {
    && (forall i :: 0 <= i < |lines| ==> '\n' !in lines[i])
    && (!ended ==> lines != [] && lines[|lines| - 1] != "")
  }

  /** The scanner takes a text of lines apart again. */
  lemma {:induction false} JoinedLines(lines: seq<string>, ended: bool)
    requires AreLines(lines, ended)
    ensures RawLines(Joined(lines, ended)) == lines
    decreases |lines|
  {
    if lines != [] {
      if |lines| == 1 && !ended {
        assert lines == [lines[0]];
      } else {
        assert ended || lines[1..][|lines[1..]| - 1] == lines[|lines| - 1];
        JoinedLines(lines[1..], ended);
        RawLineFirst(lines[0], Joined(lines[1..], ended));
        assert [lines[0]] + lines[1..] == lines;
      }
    }
  }

  /** And every text is the text of the lines that the scanner takes it to. */
  lemma {:induction false} EveryTextIsJoined(text: string) returns (ended: bool)
    ensures AreLines(RawLines(text), ended) && Joined(RawLines(text), ended) == text
    decreases |text|
  {
    match Cut(text, '\n')
    case None =>
      ended := text == "";
    case Some((line, rest)) =>
      ended := EveryTextIsJoined(rest);
      if rest == "" {
        ended := true;
      }
      assert RawLines(text) == [line] + RawLines(rest);
      assert ([line] + RawLines(rest))[1..] == RawLines(rest);
  }

  /** The i-th line as it is written. */
  function Written(items: seq<Item>, marked: bool, i: nat): string
    requires i < |items|
  {
    Render(items[i], marked && i == 0)
  }

  function WriteLines(items: seq<Item>, marked: bool): seq<string> {
    seq(|items|, i requires 0 <= i < |items| => Written(items, marked, i))
  }

  function WriteText(items: seq<Item>, marked: bool, ended: bool): string {
    Joined(WriteLines(items, marked), ended)
  }

  ghost predicate IsFile(items: seq<Item>, marked: bool, ended: bool) {
    AreLines(WriteLines(items, marked), ended) && forall i :: 0 <= i < |items| ==> WellFormed(items[i])
  }

  ghost predicate Short(items: seq<Item>, marked: bool) {
    forall i :: 0 <= i < |items| ==> ByteLength(Written(items, marked, i)) < 1048576
  }

  lemma {:induction false} TrimSpaceBlank(s: string, blank: string)
    requires AllBlank(blank)
    ensures TrimSpace(s + blank) == TrimSpace(s)
  {
    if s == "" {
      assert s + blank == blank + "";
      TrimLeftBlank(blank, "");
    } else if IsSpace(s[0]) {
      assert (s + blank)[1..] == s[1..] + blank;
      TrimSpaceBlank(s[1..], blank);
    } else {
      TrimRightBlank(s, blank);
    }
  }

  lemma OnlyTrimmedMatters(text1: string, text2: string, first: bool)
    requires TrimSpace(text1) == TrimSpace(text2)
    ensures ReadLine(text1, first) == ReadLine(text2, first)
  {
  }

  /** A carriage return before the newline makes no difference. */
  lemma CarriageReturnGoes(text: string, first: bool)
    ensures ReadLine(DropCR(text), first) == ReadLine(text, first)
  {
    if DropCR(text) != text {
      assert text == DropCR(text) + "\r";
      TrimSpaceBlank(DropCR(text), "\r");
      OnlyTrimmedMatters(DropCR(text), text, first);
    }
  }

  ghost predicate ReadsLike(lines: seq<Line>, items: seq<Item>) {
    |lines| == |items| && forall i :: 0 <= i < |items| ==> lines[i] == Meaning(items[i])
  }

  ghost predicate AllShort(lines: seq<string>) {
    forall i :: 0 <= i < |lines| ==> ByteLength(lines[i]) < 1048576
  }

  /** A text of short lines is scanned to those lines. */
  lemma JoinedScan(lines: seq<string>, ended: bool)
    requires AreLines(lines, ended) && AllShort(lines)
    ensures var scanned := Scan(Joined(lines, ended));
            && !scanned.tooLong && |scanned.texts| == |lines|
            && forall i :: 0 <= i < |lines| ==> scanned.texts[i] == DropCR(lines[i])
  {
    JoinedLines(lines, ended);
    assert FirstLong(lines, 0) == |lines|;
  }

  /** And each is read for itself. */
  lemma JoinedReads(lines: seq<string>, ended: bool)
    requires AreLines(lines, ended) && AllShort(lines)
    ensures var file := File(Joined(lines, ended), false);
            && !Broken(file) && |LinesOf(file)| == |lines|
            && forall i :: 0 <= i < |lines| ==> LinesOf(file)[i] == ReadLine(lines[i], i == 0)
  {
    var file := File(Joined(lines, ended), false);
    JoinedScan(lines, ended);
    forall i | 0 <= i < |lines|
      ensures LinesOf(file)[i] == ReadLine(lines[i], i == 0)
    {
      CarriageReturnGoes(lines[i], i == 0);
    }
  }

  /** A file reads as its lines were meant. */
  lemma FileReads(items: seq<Item>, marked: bool, ended: bool)
    requires IsFile(items, marked, ended) && Short(items, marked)
    requires forall i :: 0 <= i < |items| ==> !IsMistaken(items[i])
    ensures var file := File(WriteText(items, marked, ended), false); ReadsLike(LinesOf(file), items) && !Broken(file)
  {
    var lines := WriteLines(items, marked);
    JoinedReads(lines, ended);
    forall i | 0 <= i < |items|
      ensures ReadLine(lines[i], i == 0) == Meaning(items[i])
    {
      ReadItem(items[i], marked && i == 0, i == 0);
    }
  }

  /** The first value that a file gives a name. */
  function FirstSet(items: seq<Item>, name: string): Option<string> {
    if items == [] then None
    else if items[0].Setting? && items[0].key == name then Some(items[0].val)
    else FirstSet(items[1..], name)
  }

  lemma {:induction false} FirstSetInLines(lines: seq<Line>, items: seq<Item>, i: nat, name: string)
    requires ReadsLike(lines, items) && i <= |items|
    ensures FirstValue(lines, i, |lines|, name) == FirstSet(items[i..], name)
    decreases |items| - i
  {
    if i < |items| {
      FirstSetInLines(lines, items, i + 1, name);
      assert items[i..][1..] == items[i + 1..];
    }
  }

  /** A value with a NUL is only for a variable that has one already. */
  ghost predicate NoNULs(env: Env, items: seq<Item>) {
    forall i :: 0 <= i < |items| && items[i].Setting? && '\0' in items[i].val ==>
      items[i].key in env || exists j :: 0 <= j < i && items[j].Setting? && items[j].key == items[i].key
  }

  lemma ItemStops(env: Env, lines: seq<Line>, items: seq<Item>, i: nat)
    requires ReadsLike(lines, items) && i < |items|
    ensures StopsAt(env, lines, i) <==>
              && items[i].Setting? && '\0' in items[i].val && items[i].key !in env
              && forall j :: 0 <= j < i ==> !(items[j].Setting? && items[j].key == items[i].key)
  {
    if items[i].Setting? {
      var key := items[i].key;
      FirstWins(lines, i, key);
      forall j: nat | j < i
        ensures BoundAt(lines, j, key) <==> items[j].Setting? && items[j].key == key
      {
      }
    }
  }

  /** Loading a file gives every variable the system's value, or else the first that the file gives it, and leaves the
      others unset; it succeeds exactly when no value with a NUL would have to be set. */
  lemma FileLoads(env: Env, items: seq<Item>, marked: bool, ended: bool, name: string)
    requires IsFile(items, marked, ended) && Short(items, marked)
    requires forall i :: 0 <= i < |items| ==> !IsMistaken(items[i])
    ensures var loaded := LoadResult(env, File(WriteText(items, marked, ended), false));
            && (loaded.error == NoError <==> NoNULs(env, items))
            && (NoNULs(env, items) ==>
                  Lookup(loaded.env, name) == if name in env then Some(env[name]) else FirstSet(items, name))
  {
    var file := File(WriteText(items, marked, ended), false);
    var lines := LinesOf(file);
    FileReads(items, marked, ended);
    AllTaken(env, lines, items);
    SourceIsFound(env, file, name);
    FirstSetInLines(lines, items, 0, name);
    assert items[0..] == items;
  }

  lemma AllTaken(env: Env, lines: seq<Line>, items: seq<Item>)
    requires ReadsLike(lines, items)
    ensures StopLine(env, lines, 0) == |lines| <==> NoNULs(env, items)
  {
    forall i: nat | i < |items|
      ensures StopsAt(env, lines, i) <==>
                && items[i].Setting? && '\0' in items[i].val && items[i].key !in env
                && forall j :: 0 <= j < i ==> !(items[j].Setting? && items[j].key == items[i].key)
    {
      ItemStops(env, lines, items, i);
    }
  }

  // ---- A line that stops the load ----

  /** The first malformed line is reported by its number, and the lines before it have had their effect. */
  lemma MalformedStops(env: Env, file: File, i: nat, name: string)
    requires i < |LinesOf(file)| && !LinesOf(file)[i].Blank? && !LinesOf(file)[i].Binding?
    requires forall j :: 0 <= j < i ==>
               LinesOf(file)[j].Blank? || (LinesOf(file)[j].Binding? && '\0' !in LinesOf(file)[j].val)
    ensures var loaded := LoadResult(env, file);
            && loaded.error == Malformed(i + 1, LinesOf(file)[i])
            && Lookup(loaded.env, name) == if name in env then Some(env[name])
               else FirstValue(LinesOf(file), 0, i, name)
  {
    var lines := LinesOf(file);
    assert StopLine(env, lines, 0) == i by {
      assert StopsAt(env, lines, i);
      forall j | 0 <= j < i
        ensures !StopsAt(env, lines, j)
      {
      }
    }
    SourceIsFound(env, file, name);
  }

  /** A file that cannot be opened, or whose reading fails, does not load; nor does one with a line that is too long. */
  lemma FailuresAreReported(env: Env, file: File)
    ensures file == Missing ==> LoadResult(env, file) == Loaded(env, LoadState(map[], map[]), Unopened)
    ensures LoadResult(env, file).error == NoError ==> file.File? && !file.failed && AllShort(RawLines(file.text))
    ensures LoadResult(env, file).error == ReadFailed ==> file.File? && (file.failed || !AllShort(RawLines(file.text)))
  {
    if file.File? {
      var raw := RawLines(file.text);
      var n := FirstLong(raw, 0);
      assert Scan(file.text).tooLong <==> n < |raw|;
    }
  }

  // ---- Examples ----

  function BareItem(key: string, val: string): Item {
    Setting("", false, "", key, "", "", Bare, val, "")
  }

  lemma BareRenders(key: string, val: string)
    ensures Render(BareItem(key, val), false) == key + "=" + val
  {
    assert Core(BareItem(key, val)) == key + "=" + val;
  }

  lemma OneLine(line: string)
    ensures Joined([line], true) == line + "\n"
  {
    assert [line][1..] == [];
    assert Joined([], true) == "";
  }

  lemma BareText(key: string, val: string)
    ensures WriteText([BareItem(key, val)], false, true) == key + "=" + val + "\n"
    ensures Written([BareItem(key, val)], false, 0) == key + "=" + val
  {
    BareRenders(key, val);
    assert WriteLines([BareItem(key, val)], false) == [key + "=" + val];
    OneLine(key + "=" + val);
  }

  lemma BareIsFile(key: string, val: string)
    requires IsValidKey(key) && IsTrim(val) && !IsWrapped(val) && '\n' !in val && '\0' !in val
    requires ByteLength(key + "=" + val) < 1048576
    ensures var items := [BareItem(key, val)]; IsFile(items, false, true) && Short(items, false) && NoNULs(map[], items)
  {
    KeyIsTrim(key);
    BareText(key, val);
  }

  lemma BareSets(key: string, val: string, name: string)
    ensures FirstSet([BareItem(key, val)], name) == if name == key then Some(val) else None
  {
    assert [BareItem(key, val)][1..] == [];
  }

  /** An unquoted value is taken as it stands. */
  lemma BareValueLoads(key: string, val: string, name: string)
    requires IsValidKey(key) && IsTrim(val) && !IsWrapped(val) && '\n' !in val && '\0' !in val
    requires ByteLength(key + "=" + val) < 1048576
    ensures var loaded := LoadResult(map[], File(key + "=" + val + "\n", false));
            loaded.error == NoError && Lookup(loaded.env, name) == if name == key then Some(val) else None
  {
    BareIsFile(key, val);
    BareText(key, val);
    BareSets(key, val, name);
    FileLoads(map[], [BareItem(key, val)], false, true, name);
  }

  lemma SampleLineLoads()
    ensures var loaded := LoadResult(map[], File("SERVER_NAME=ws-server\n", false));
            loaded.error == NoError && Lookup(loaded.env, "SERVER_NAME") == Some("ws-server")
  {
    var line := "SERVER_NAME" + "=" + "ws-server";
    assert line == "SERVER_NAME=ws-server" && line + "\n" == "SERVER_NAME=ws-server\n";
    KeyByteLength(line);
    BareValueLoads("SERVER_NAME", "ws-server", "SERVER_NAME");
  }

  /** A variable called `export` is lost if a space comes before its '='. */
  lemma ExportIsMistaken(first: bool)
    ensures IsValidKey("export") && ReadLine("export =v", first) == EmptyKey
  {
    var item := Setting("", false, "", "export", " ", "", Bare, "v", "");
    assert Core(item) == "export =v";
    assert Render(item, false) == "export =v";
    ReadItem(item, false, first);
  }

  /** Keys are made of letters, digits and underscores, and do not start with a digit. */
  lemma ValidKeysAreSpelled()
    ensures IsValidKey("A") && IsValidKey("_") && IsValidKey("Az_09") && IsValidKey("MAX_AREAS")
    ensures !IsValidKey("") && !IsValidKey("9A") && !IsValidKey("A-B") && !IsValidKey("A B") && !IsValidKey("A.B")
  {
    assert "9A"[0] == '9' && "A-B"[1] == '-' && "A B"[1] == ' ' && "A.B"[1] == '.';
  }

  // ---- Characters ----

  /** The characters that count as blank are Unicode's white space. */
  lemma BlanksAreSpelled(c: char)
    ensures IsSpace(c) <==> c in {
              '\U{9}', '\U{A}', '\U{B}', '\U{C}', '\U{D}', '\U{20}', '\U{85}', '\U{A0}', '\U{1680}', '\U{2000}',
                  '\U{2001}',
              '\U{2002}', '\U{2003}', '\U{2004}', '\U{2005}', '\U{2006}', '\U{2007}', '\U{2008}', '\U{2009}',
                  '\U{200A}',
              '\U{2028}', '\U{2029}', '\U{202F}', '\U{205F}', '\U{3000}'}
  {
  }

  /** How many bytes a character takes in UTF-8 (section 3 of RFC 3629). */
  lemma BytesAreCounted(c: char)
    ensures UTF8Length(c) == 1 <==> 0 <= c as int <= 0x7F
    ensures UTF8Length(c) == 2 <==> 0x80 <= c as int <= 0x7FF
    ensures UTF8Length(c) == 3 <==> 0x800 <= c as int <= 0xFFFF
    ensures UTF8Length(c) == 4 <==> 0x10000 <= c as int
  {
  }
}
