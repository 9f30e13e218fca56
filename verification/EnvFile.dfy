/** The `.env` of an install: written by `render` (installer/render.py), edited by an
    upgrade's sed commands and parsed back (installer/runner.py). */
module EnvFile {
  import opened Basics
  import opened Text

  type Env = map<string, string>
  type Settings = seq<(string, string)>

  // ---- Characters -------------------------------------------------------------

  // [A-Za-z0-9_./:@%+,=-], which a value may hold without quotes.
  predicate PlainChar(c: char) {
    'A' <= c <= 'Z' || 'a' <= c <= 'z' || '0' <= c <= '9' || c in "_./:@%+,=-"
  }

  predicate Plain(value: string) {
    forall i :: 0 <= i < |value| ==> PlainChar(value[i])
  }

  predicate OneLine(value: string) {
    forall i :: 0 <= i < |value| ==> !LineBoundary(value[i])
  }

  // The names render writes: capitals, digits and underscores.
  predicate KeyName(key: string) {
    key != "" && forall i :: 0 <= i < |key| ==> 'A' <= key[i] <= 'Z' || '0' <= key[i] <= '9' || key[i] == '_'
  }

  // ---- Lines --------------------------------------------------------------------

  function LineLength(t: string): (n: nat)
    ensures n <= |t| && OneLine(t[..n]) && (n < |t| ==> LineBoundary(t[n]))
  {
    if t == "" || LineBoundary(t[0]) then 0
    else
      var n := LineLength(t[1..]);
      assert t[..n + 1] == [t[0]] + t[1..][..n];
      n + 1
  }

  // str.splitlines: \r\n is one boundary, and a final boundary opens no line.
  function SplitLines(t: string): seq<string>
    decreases |t|
  {
    var n := LineLength(t);
    if t == "" then []
    else if n == |t| then [t]
    else if t[n] == '\r' && n + 1 < |t| && t[n + 1] == '\n' then [t[..n]] + SplitLines(t[n + 2..])
    else [t[..n]] + SplitLines(t[n + 1..])
  }

  function Unlines(lines: seq<string>): string {
    if lines == [] then "" else lines[0] + "\n" + Unlines(lines[1..])
  }

  lemma {:induction false} SplitLinesOneLine(t: string, k: nat)
    requires k < |SplitLines(t)|
    ensures OneLine(SplitLines(t)[k])
    decreases |t|
  {
    hide SplitLines, LineLength, OneLine, RestAfter;
    if LineLength(t) == |t| {
      LastLine(t);
    } else {
      LineBefore(t);
      if k > 0 { SplitLinesOneLine(RestAfter(t), k - 1); }
    }
  }

  // What follows the first line.
  function RestAfter(t: string): (rest: string)
    requires LineLength(t) < |t|
    ensures |rest| < |t|
  {
    var n := LineLength(t);
    if t[n] == '\r' && n + 1 < |t| && t[n + 1] == '\n' then t[n + 2..] else t[n + 1..]
  }

  lemma {:induction false} LastLine(t: string)
    requires LineLength(t) == |t|
    ensures SplitLines(t) == (if t == "" then [] else [t]) && OneLine(t)
  {
    assert t[..|t|] == t;
  }

  lemma {:induction false} LineBefore(t: string)
    requires LineLength(t) < |t|
    ensures SplitLines(t) == [t[..LineLength(t)]] + SplitLines(RestAfter(t))
    ensures OneLine(t[..LineLength(t)])
  {
    hide OneLine;
  }

  lemma {:induction false} LineLengthIs(line: string, rest: string)
    requires OneLine(line)
    ensures LineLength(line + "\n" + rest) == |line|
  {
    var t := line + "\n" + rest;
    if line != "" {
      assert t[1..] == line[1..] + "\n" + rest;
      LineLengthIs(line[1..], rest);
    }
  }

  /** Lines without a boundary come back from the text they make. */
  lemma {:induction false} SplitUnlines(lines: seq<string>)
    requires forall k :: 0 <= k < |lines| ==> OneLine(lines[k])
    ensures SplitLines(Unlines(lines)) == lines
  {
    if lines != [] {
      var t, rest := Unlines(lines), Unlines(lines[1..]);
      LineLengthIs(lines[0], rest);
      assert t[..|lines[0]|] == lines[0] && t[|lines[0]| + 1..] == rest;
      SplitUnlines(lines[1..]);
    }
  }

  // ---- Parsing --------------------------------------------------------------------

  function IndexOf(t: string, c: char): (n: nat)
    requires c in t
    ensures n < |t| && t[n] == c && c !in t[..n]
  {
    if t[0] == c then 0
    else
      assert c in t[1..];
      var n := IndexOf(t[1..], c);
      assert t[..n + 1] == [t[0]] + t[1..][..n];
      n + 1
  }

  function Quote(c: char): bool { c == '\'' }

  // One line read as `_env_values` reads it.
  function EnvLine(line: string): Option<(string, string)> {
    if line != "" && line[0] != '#' && '=' in line then
      var n := IndexOf(line, '=');
      Some((line[..n], Strip(line[n + 1..], Quote)))
    else None
  }

  // One line read as `_parse_env` reads it.
  function ParseLine(line: string): Option<(string, string)> {
    var stripped := Strip(line, Space);
    if stripped != "" && stripped[0] != '#' && '=' in stripped then
      var n := IndexOf(stripped, '=');
      Some((Strip(stripped[..n], Space), Strip(Strip(stripped[n + 1..], Space), Quote)))
    else None
  }

  // The settings of the lines; a later line wins.
  function Settle(lines: seq<string>, reader: string -> Option<(string, string)>): Env {
    if lines == [] then map[]
    else
      var m := Settle(Init(lines), reader);
      match reader(Last(lines))
      case None => m
      case Some((key, value)) => m[key := value]
  }

  lemma {:induction false} SettleNext(lines: seq<string>, i: nat, reader: string -> Option<(string, string)>)
    requires i < |lines|
    ensures Settle(lines[..i + 1], reader) ==
            match reader(lines[i])
            case None => Settle(lines[..i], reader)
            case Some((key, value)) => Settle(lines[..i], reader)[key := value]
  {
    assert Init(lines[..i + 1]) == lines[..i];
  }

  function EnvValuesOf(t: string): Env { Settle(SplitLines(t), EnvLine) }

  function ParseEnvOf(t: string): Env { Settle(SplitLines(t), ParseLine) }

  /** `_env_values`. */
  method EnvValues(content: string) returns (values: Env)
    ensures values == EnvValuesOf(content)
  {
    values := map[];
    var lines := SplitLines(content);
    for i := 0 to |lines|
      invariant values == Settle(lines[..i], EnvLine)
    {
      var line := lines[i];
      assert Init(lines[..i + 1]) == lines[..i];
      if line != "" && line[0] != '#' && '=' in line {
        var n := IndexOf(line, '=');
        var key, value := line[..n], line[n + 1..];
        values := values[key := Strip(value, Quote)];
      }
    }
    assert lines[..|lines|] == lines;
  }

  /** `_parse_env`. */
  method ParseEnv(content: string) returns (values: Env)
    ensures values == ParseEnvOf(content)
  {
    values := map[];
    var lines := SplitLines(content);
    for i := 0 to |lines|
      invariant values == Settle(lines[..i], ParseLine)
    {
      SettleNext(lines, i, ParseLine);
      var stripped := Strip(lines[i], Space);
      if stripped != "" && stripped[0] != '#' && '=' in stripped {
        var n := IndexOf(stripped, '=');
        var key, value := stripped[..n], stripped[n + 1..];
        values := values[Strip(key, Space) := Strip(Strip(value, Space), Quote)];
      }
    }
    assert lines[..|lines|] == lines;
  }

  // ---- Writing ----------------------------------------------------------------------

  // The file's first line, in pieces short enough to reason about.
  const HEADER := "# Written by the " + "UltimaScraper WebUI" + " installer. Holds" + " this install's secrets."

  // `_env_value`; a quoted value cannot hold a quote.
  function EnvValue(value: string): Result<string, string> {
    if Plain(value) then Ok(value)
    else if '\'' in value then Err("Values cannot contain single quotes.")
    else Ok("'" + value + "'")
  }

  function SettingLines(settings: Settings): Result<seq<string>, string> {
    if settings == [] then Ok([])
    else match EnvValue(Last(settings).1)
      case Err(message) => (match SettingLines(Init(settings)) case Err(first) => Err(first) case Ok(_) => Err(message))
      case Ok(value) => (match SettingLines(Init(settings))
                         case Err(first) => Err(first)
                         case Ok(lines) => Ok(lines + [Last(settings).0 + "=" + value]))
  }

  // The text of the file `render` writes, or why it writes none.
  function EnvText(settings: Settings): Result<string, string> {
    match SettingLines(settings)
    case Err(message) => Err(message)
    case Ok(lines) => Ok(Unlines([HEADER] + lines))
  }

  function Written(settings: Settings): Env {
    if settings == [] then map[] else Written(Init(settings))[Last(settings).0 := Last(settings).1]
  }

  ghost predicate Keyed(settings: Settings) {
    && (forall i :: 0 <= i < |settings| ==> KeyName(settings[i].0))
    && (forall i, j :: 0 <= i < j < |settings| ==> settings[i].0 != settings[j].0)
  }

  lemma {:induction false} WrittenAt(settings: Settings, i: nat)
    requires Keyed(settings) && i < |settings|
    ensures settings[i].0 in Written(settings) && Written(settings)[settings[i].0] == settings[i].1
    decreases |settings|
  {
    if i < |settings| - 1 { WrittenAt(Init(settings), i); }
  }

  // ---- What stripping does ------------------------------------------------------------

  lemma {:induction false} StripOneLine(t: string, drop: char -> bool)
    requires OneLine(t)
    ensures OneLine(Strip(t, drop))
  {
    StripLeftOneLine(t, drop);
    StripRightOneLine(StripLeft(t, drop), drop);
  }

  lemma {:induction false} StripLeftOneLine(t: string, drop: char -> bool)
    requires OneLine(t)
    ensures OneLine(StripLeft(t, drop))
  {
    if t != "" && drop(t[0]) { StripLeftOneLine(t[1..], drop); }
  }

  lemma {:induction false} StripRightOneLine(t: string, drop: char -> bool)
    requires OneLine(t)
    ensures OneLine(StripRight(t, drop))
  {
    if t != "" && drop(Last(t)) { StripRightOneLine(Init(t), drop); }
  }

  lemma {:induction false} StripQuotes(value: string)
    requires '\'' !in value
    ensures Strip("'" + value + "'", Quote) == value
  {
    var t, tail := "'" + value + "'", value + "'";
    assert t[1..] == tail && Last(tail) == '\'' && Init(tail) == value;
    assert StripLeft(t, Quote) == StripLeft(tail, Quote);
    if value == "" {
      assert tail[1..] == "";
      assert StripLeft(tail, Quote) == StripLeft("", Quote) == "";
    } else {
      assert tail[0] == value[0] && !Quote(tail[0]);
      assert StripLeft(tail, Quote) == tail;
      assert StripRight(tail, Quote) == StripRight(value, Quote);
      assert !Quote(Last(value));
    }
  }

  // ---- Lines that hold a setting --------------------------------------------------------

  predicate Sets(line: string, key: string) {
    key + "=" <= line
  }

  lemma {:induction false} IndexIs(t: string, c: char, n: nat)
    requires n < |t| && t[n] == c && forall i :: 0 <= i < n ==> t[i] != c
    ensures c in t && IndexOf(t, c) == n
  {
    if n > 0 { IndexIs(t[1..], c, n - 1); }
  }

  lemma {:induction false} KeyEnds(line: string, key: string)
    requires KeyName(key) && Sets(line, key)
    ensures '=' in line && IndexOf(line, '=') == |key| && line[..|key|] == key
    ensures line[0] != '#' && !Space(line[0])
  {
    assert line[|key|] == (key + "=")[|key|] == '=';
    assert line[..|key|] == key;
    assert forall i :: 0 <= i < |key| ==> line[i] == key[i];
    IndexIs(line, '=', |key|);
  }

  /** How both parsers read a line that sets a key. */
  lemma {:induction false} ReadSetting(line: string, key: string)
    requires KeyName(key) && Sets(line, key)
    ensures EnvLine(line) == Some((key, Strip(line[|key| + 1..], Quote)))
    ensures ParseLine(line).Some? && ParseLine(line).value.0 == key
  {
    KeyEnds(line, key);
    StripRightFront(line, key);
    var stripped := Strip(line, Space);
    KeyEnds(stripped, key);
    StripKeeps(key, Space);
  }

  lemma {:induction false} StripRightFront(line: string, key: string)
    requires KeyName(key) && Sets(line, key)
    ensures Sets(StripRight(line, Space), key)
    decreases |line|
  {
    assert line[|key|] == (key + "=")[|key|];
    if Space(Last(line)) {
      assert |line| - 1 != |key|;
      StripRightFront(Init(line), key);
    }
  }

  lemma {:induction false} PlainEnds(value: string)
    requires Plain(value)
    ensures OneLine(value) && Strip(value, Space) == value && Strip(value, Quote) == value
  {
    PlainOneLine(value);
    hide Plain, OneLine;
    if value != "" {
      assert !Space(value[0]) && !Quote(value[0]) && !Space(Last(value)) && !Quote(Last(value)) by {
        PlainNoSpace(value, 0);
        PlainNoSpace(value, |value| - 1);
      }
    }
  }

  lemma {:induction false} PlainNoSpace(value: string, i: nat)
    requires Plain(value) && i < |value|
    ensures !Space(value[i]) && !Quote(value[i])
  {
    assert PlainChar(value[i]);
  }

  lemma {:induction false} PlainOneLine(value: string)
    requires Plain(value)
    ensures OneLine(value)
  {
    forall i | 0 <= i < |value| ensures !LineBoundary(value[i]) { assert PlainChar(value[i]); }
  }

  lemma {:induction false} WrittenEnds(value: string)
    requires EnvValue(value).Ok?
    ensures var written := EnvValue(value).value;
            && Strip(written, Quote) == value
            && Strip(written, Space) == written
            && (written != "" ==> !Space(Last(written)))
  {
    if Plain(value) {
      PlainEnds(value);
      if value != "" { assert PlainChar(Last(value)); }
    } else {
      StripQuotes(value);
      StripKeeps(EnvValue(value).value, Space);
    }
  }

  /** A line the writer writes is read as the setting it was written for. */
  lemma {:induction false} WrittenLineReads(key: string, value: string, line: string)
    requires KeyName(key) && EnvValue(value).Ok? && line == key + "=" + EnvValue(value).value
    ensures EnvLine(line) == Some((key, value)) && ParseLine(line) == Some((key, value)) && Sets(line, key)
  {
    var written := EnvValue(value).value;
    assert line == key + "=" + written;
    assert line[|key| + 1..] == written;
    KeyEnds(line, key);
    WrittenEnds(value);
    assert Last(line) == if written == "" then '=' else Last(written);
    StripKeeps(line, Space);
    StripKeeps(key, Space);
  }

  // ---- The round trip ---------------------------------------------------------------------

  lemma {:induction false} SettingLinesAt(settings: Settings, i: nat)
    requires SettingLines(settings).Ok? && i < |settings|
    ensures |SettingLines(settings).value| == |settings|
    ensures EnvValue(settings[i].1).Ok?
    ensures SettingLines(settings).value[i] == settings[i].0 + "=" + EnvValue(settings[i].1).value
    decreases |settings|
  {
    if i < |settings| - 1 { SettingLinesAt(Init(settings), i); }
    else if |settings| > 1 { SettingLinesAt(Init(settings), 0); }
  }

  lemma {:induction false} SettleWritten(settings: Settings, reader: string -> Option<(string, string)>)
    requires SettingLines(settings).Ok? && Keyed(settings)
    requires reader == EnvLine || reader == ParseLine
    ensures Settle(SettingLines(settings).value, reader) == Written(settings)
    decreases |settings|
  {
    if settings != [] {
      var lines := SettingLines(settings).value;
      var (key, value) := Last(settings);
      SettleWritten(Init(settings), reader);
      assert Init(lines) == SettingLines(Init(settings)).value;
      WrittenLineReads(key, value, Last(lines));
    }
  }

  lemma {:induction false} SettlePrepend(first: string, lines: seq<string>, reader: string -> Option<(string, string)>)
    requires reader(first) == None
    ensures Settle([first] + lines, reader) == Settle(lines, reader)
    decreases |lines|
  {
    if lines == [] {
      assert Init([first]) == [];
    } else {
      assert Init([first] + lines) == [first] + Init(lines);
      SettlePrepend(first, Init(lines), reader);
    }
  }

  lemma {:induction false} SettleOneLine(lines: seq<string>, reader: string -> Option<(string, string)>, key: string)
    requires forall k :: 0 <= k < |lines| ==> OneLine(lines[k])
    requires reader == EnvLine || reader == ParseLine
    requires key in Settle(lines, reader)
    ensures OneLine(Settle(lines, reader)[key])
    decreases |lines|
  {
    var line := Last(lines);
    StripOneLine(line, Space);
    if reader(line).Some? {
      var stripped := if reader == EnvLine then line else Strip(line, Space);
      if reader == EnvLine {
        StripOneLine(line[IndexOf(line, '=') + 1..], Quote);
      } else {
        ParseLineOneLine(line);
      }
    }
    if reader(line).None? || reader(line).value.0 != key {
      SettleOneLine(Init(lines), reader, key);
    }
  }

  lemma {:induction false} ParseLineOneLine(line: string)
    requires OneLine(line) && ParseLine(line).Some?
    ensures OneLine(ParseLine(line).value.1)
  {
    StripOneLine(line, Space);
    var stripped := Strip(line, Space);
    var value := stripped[IndexOf(stripped, '=') + 1..];
    StripOneLine(value, Space);
    StripOneLine(Strip(value, Space), Quote);
  }

  lemma {:induction false} OneLineAppend(a: string, b: string)
    requires OneLine(a) && OneLine(b)
    ensures OneLine(a + b)
  {
  }

  lemma {:induction false} HeaderStart()
    ensures OneLine("# Written by the ") && OneLine("UltimaScraper WebUI")
  {
  }

  lemma {:induction false} HeaderEnd()
    ensures OneLine(" installer. Holds") && OneLine(" this install's secrets.")
  {
  }

  lemma {:induction false} HeaderOneLine()
    ensures OneLine(HEADER)
  {
    var a, b, c, d := "# Written by the ", "UltimaScraper WebUI", " installer. Holds", " this install's secrets.";
    HeaderStart();
    HeaderEnd();
    hide OneLine;
    OneLineAppend(a, b);
    OneLineAppend(a + b, c);
    OneLineAppend(a + b + c, d);
  }

  lemma {:induction false} HeaderInert()
    ensures OneLine(HEADER) && EnvLine(HEADER) == None && ParseLine(HEADER) == None
  {
    HeaderOneLine();
    hide OneLine;
    assert HEADER[0] == '#' && Last(HEADER) == '.';
    StripKeeps(HEADER, Space);
  }

  lemma {:induction false} RoundTripWhole(settings: Settings)
    requires Keyed(settings) && EnvText(settings).Ok?
    requires forall i :: 0 <= i < |settings| ==> OneLine(settings[i].1)
    ensures EnvValuesOf(EnvText(settings).value) == Written(settings)
    ensures ParseEnvOf(EnvText(settings).value) == Written(settings)
  {
    var written := SettingLines(settings).value;
    WrittenOneLine(settings);
    HeaderInert();
    SplitUnlines([HEADER] + written);
    SettlePrepend(HEADER, written, EnvLine);
    SettlePrepend(HEADER, written, ParseLine);
    SettleWritten(settings, EnvLine);
    SettleWritten(settings, ParseLine);
  }

  lemma {:induction false} ParsedValuesOneLine(text: string, key: string)
    ensures key in EnvValuesOf(text) ==> OneLine(EnvValuesOf(text)[key])
    ensures key in ParseEnvOf(text) ==> OneLine(ParseEnvOf(text)[key])
  {
    forall k | 0 <= k < |SplitLines(text)| ensures OneLine(SplitLines(text)[k]) { SplitLinesOneLine(text, k); }
    if key in EnvValuesOf(text) { SettleOneLine(SplitLines(text), EnvLine, key); }
    if key in ParseEnvOf(text) { SettleOneLine(SplitLines(text), ParseLine, key); }
  }

  /** Parsing gives back the settings written exactly when no value has a line
      boundary in it: both parsers, every settings render can write. */
  lemma {:induction false} EnvRoundTrip(settings: Settings)
    requires Keyed(settings) && EnvText(settings).Ok?
    ensures var text := EnvText(settings).value;
            var whole := forall i :: 0 <= i < |settings| ==> OneLine(settings[i].1);
            (EnvValuesOf(text) == Written(settings) <==> whole) && (ParseEnvOf(text) == Written(settings) <==> whole)
  {
    if forall i :: 0 <= i < |settings| ==> OneLine(settings[i].1) {
      RoundTripWhole(settings);
    } else {
      var i :| 0 <= i < |settings| && !OneLine(settings[i].1);
      WrittenAt(settings, i);
      ParsedValuesOneLine(EnvText(settings).value, settings[i].0);
    }
  }

  lemma {:induction false} WrittenOneLine(settings: Settings)
    requires Keyed(settings) && SettingLines(settings).Ok?
    requires forall i :: 0 <= i < |settings| ==> OneLine(settings[i].1)
    ensures |SettingLines(settings).value| == |settings|
    ensures forall k :: 0 <= k < |settings| ==> OneLine(SettingLines(settings).value[k])
  {
    if settings != [] { SettingLinesAt(settings, 0); }
    forall k | 0 <= k < |settings|
      ensures |SettingLines(settings).value| == |settings| && OneLine(SettingLines(settings).value[k])
    {
      SettingLinesAt(settings, k);
    }
  }
}
