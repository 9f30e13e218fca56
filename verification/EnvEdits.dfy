/** Editing an install's `.env` in place, as an upgrade's grep, sed and printf commands do
    (installer/runner.py: `_set_env_command`, `_LEGACY_IMAGE_KEYS_EDIT`, `_upgrade`). */
module EnvEdits {
  import opened Basics
  import opened Text
  import opened EnvFile

  // ---- The commands, on any text ------------------------------------------------------

  // sed and grep see the pieces between newlines; the last is an unfinished line.
  function NewlinePieces(t: string): (pieces: seq<string>)
    ensures |pieces| >= 1
  {
    Split(t, "\n")
  }

  // grep -q '^KEY='
  predicate Grep(t: string, key: string) {
    exists i :: 0 <= i < |NewlinePieces(t)| && Sets(NewlinePieces(t)[i], key)
  }

  function Substitute(lines: seq<string>, key: string, value: string): (r: seq<string>)
    ensures |r| == |lines|
  {
    if lines == [] then []
    else Substitute(Init(lines), key, value) + [if Sets(Last(lines), key) then key + "=" + value else Last(lines)]
  }

  // if grep -q '^KEY='; then sed -i 's|^KEY=.*|KEY=VALUE|'; else printf '%s\n' KEY=VALUE >>; fi
  function SetCommand(t: string, key: string, value: string): string {
    if Grep(t, key) then Join(Substitute(NewlinePieces(t), key, value), "\n")
    else t + key + "=" + value + "\n"
  }

  predicate SetsAny(line: string, keys: set<string>) {
    exists key :: key in keys && Sets(line, key)
  }

  function Without(lines: seq<string>, keys: set<string>): seq<string> {
    if lines == [] then []
    else Without(Init(lines), keys) + if SetsAny(Last(lines), keys) then [] else [Last(lines)]
  }

  // sed -i -e '/^KEY=/d' ...
  function DeleteCommand(t: string, keys: set<string>): string {
    var pieces := NewlinePieces(t);
    Unlines(Without(Init(pieces), keys)) + if SetsAny(Last(pieces), keys) then "" else Last(pieces)
  }

  datatype Edit = Set(key: string, value: string) | Drop(keys: set<string>)

  function EditText(t: string, edit: Edit): string {
    match edit
    case Set(key, value) => SetCommand(t, key, value)
    case Drop(keys) => DeleteCommand(t, keys)
  }

  function EditEnv(env: Env, edit: Edit): Env {
    match edit
    case Set(key, value) => env[key := value]
    case Drop(keys) => env - keys
  }

  function EditTextAll(t: string, edits: seq<Edit>): string {
    if edits == [] then t else EditText(EditTextAll(t, Init(edits)), Last(edits))
  }

  function EditEnvAll(env: Env, edits: seq<Edit>): Env {
    if edits == [] then env else EditEnv(EditEnvAll(env, Init(edits)), Last(edits))
  }

  // An edit whose value needs no quotes; such a value holds nothing special to sed.
  ghost predicate PlainEdit(edit: Edit) {
    match edit
    case Set(key, value) => KeyName(key) && Plain(value)
    case Drop(keys) => forall key :: key in keys ==> KeyName(key)
  }

  // ---- Well-kept files -------------------------------------------------------------------

  // Sets a key from its first character on, or is read as no setting.
  ghost predicate KeptLine(line: string) {
    OneLine(line) && ((exists key :: KeyName(key) && Sets(line, key)) || ParseLine(line) == None)
  }

  ghost predicate KeptLines(lines: seq<string>) {
    forall i :: 0 <= i < |lines| ==> KeptLine(lines[i])
  }

  // A text of such lines, each of them finished.
  ghost predicate WellKept(t: string) {
    exists lines :: KeptLines(lines) && t == Unlines(lines)
  }

  lemma {:induction false} PiecesOfUnlines(lines: seq<string>)
    requires forall i :: 0 <= i < |lines| ==> OneLine(lines[i])
    ensures Split(Unlines(lines), "\n") == lines + [""]
    ensures Join(lines + [""], "\n") == Unlines(lines)
  {
    JoinIsUnlines(lines);
    hide Join, OneLine;
    if lines == [] {
    } else {
      PiecesOfUnlines(lines[1..]);
      SplitOneLine(lines[0], Unlines(lines[1..]));
      assert lines + [""] == [lines[0]] + (lines[1..] + [""]);
    }
  }

  lemma {:induction false} JoinIsUnlines(lines: seq<string>)
    ensures Join(lines + [""], "\n") == Unlines(lines)
  {
    if lines == [] {
    } else {
      JoinIsUnlines(lines[1..]);
      assert (lines + [""])[1..] == lines[1..] + [""];
      assert lines[0] + "\n" + Unlines(lines[1..]) == lines[0] + ("\n" + Unlines(lines[1..]));
    }
  }

  lemma {:induction false} SplitOneLine(line: string, rest: string)
    requires OneLine(line)
    ensures Split(line + "\n" + rest, "\n") == [line] + Split(rest, "\n")
  {
    var t := line + "\n" + rest;
    if line == "" {
      assert t[..1] == "\n" && t[1..] == rest;
    } else {
      assert t[0] == line[0] && t[..1] == [line[0]] && t[1..] == line[1..] + "\n" + rest;
      SplitOneLine(line[1..], rest);
      assert line == [line[0]] + line[1..];
      assert ([line[1..]] + Split(rest, "\n"))[1..] == Split(rest, "\n");
    }
  }

  lemma {:induction false} UnlinesAppend(a: seq<string>, b: seq<string>)
    ensures Unlines(a + b) == Unlines(a) + Unlines(b)
  {
    if a == [] {
      assert a + b == b;
    } else {
      assert (a + b)[1..] == a[1..] + b && (a + b)[0] == a[0];
      UnlinesAppend(a[1..], b);
    }
  }

  // What parsing a well-kept text gives, line by line.
  lemma {:induction false} ParseKept(lines: seq<string>)
    requires KeptLines(lines)
    ensures ParseEnvOf(Unlines(lines)) == Settle(lines, ParseLine)
  {
    SplitUnlines(lines);
  }

  // ---- Setting a key ------------------------------------------------------------------------

  lemma {:induction false} SetLineReads(key: string, value: string)
    requires KeyName(key) && Plain(value)
    ensures var line := key + "=" + value; KeptLine(line) && ParseLine(line) == Some((key, value)) && Sets(line, key)
  {
    WrittenLineReads(key, value, key + "=" + value);
    PlainEnds(value);
    assert OneLine(key + "=");
    OneLineAppend(key + "=", value);
  }

  type Reader = string -> Option<(string, string)>

  // A line the reader reads as a setting exactly when it sets that key.
  ghost predicate Regular(line: string, reader: Reader) {
    && (forall key :: KeyName(key) && Sets(line, key) ==> reader(line).Some? && reader(line).value.0 == key)
    && (reader(line).Some? ==> KeyName(reader(line).value.0) && Sets(line, reader(line).value.0))
  }

  lemma {:induction false} KeptRegular(line: string)
    requires KeptLine(line)
    ensures Regular(line, ParseLine)
  {
    forall key | KeyName(key) && Sets(line, key)
      ensures ParseLine(line).Some? && ParseLine(line).value.0 == key
    {
      ReadSetting(line, key);
    }
  }

  lemma {:induction false} SettleSnoc(lines: seq<string>, line: string, reader: Reader)
    ensures Settle(lines + [line], reader) ==
            match reader(line) { case None => Settle(lines, reader)
                                 case Some((key, value)) => Settle(lines, reader)[key := value] }
  {
    assert Init(lines + [line]) == lines && Last(lines + [line]) == line;
  }

  lemma {:induction false} SubstituteSettles(lines: seq<string>, key: string, value: string, reader: Reader)
    requires KeyName(key) && reader(key + "=" + value) == Some((key, value))
    requires forall i :: 0 <= i < |lines| ==> Regular(lines[i], reader)
    ensures var known := exists i :: 0 <= i < |lines| && Sets(lines[i], key);
            Settle(Substitute(lines, key, value), reader) ==
            if known then Settle(lines, reader)[key := value] else Settle(lines, reader)
    decreases |lines|
  {
    if lines != [] {
      var line, before := Last(lines), Substitute(Init(lines), key, value);
      SubstituteSettles(Init(lines), key, value, reader);
      assert forall i :: 0 <= i < |lines| - 1 ==> Init(lines)[i] == lines[i];
      assert Regular(line, reader);
      if Sets(line, key) {
        SettleSnoc(before, key + "=" + value, reader);
      } else {
        SettleSnoc(before, line, reader);
      }
    }
  }

  lemma {:induction false} SubstituteKept(lines: seq<string>, key: string, value: string)
    requires KeptLines(lines) && KeptLine(key + "=" + value)
    ensures KeptLines(Substitute(lines, key, value))
    decreases |lines|
  {
    if lines != [] { SubstituteKept(Init(lines), key, value); }
  }

  lemma {:induction false} SetKept(lines: seq<string>, key: string, value: string) returns (after: seq<string>)
    requires KeptLines(lines) && KeyName(key) && Plain(value)
    ensures KeptLines(after) && SetCommand(Unlines(lines), key, value) == Unlines(after)
    ensures Settle(after, ParseLine) == Settle(lines, ParseLine)[key := value]
  {
    var line := key + "=" + value;
    SetLineReads(key, value);
    forall i | 0 <= i < |lines| ensures Regular(lines[i], ParseLine) { KeptRegular(lines[i]); }
    SetText(lines, key, value);
    if exists i :: 0 <= i < |lines| && Sets(lines[i], key) {
      after := Substitute(lines, key, value);
      SubstituteSettles(lines, key, value, ParseLine);
      SubstituteKept(lines, key, value);
    } else {
      after := lines + [line];
      SettleSnoc(lines, line, ParseLine);
    }
  }

  // What the command makes of finished lines.
  lemma {:induction false} SetText(lines: seq<string>, key: string, value: string)
    requires forall i :: 0 <= i < |lines| ==> OneLine(lines[i])
    requires key != "" && OneLine(key + "=" + value)
    ensures SetCommand(Unlines(lines), key, value) ==
            Unlines(if exists i :: 0 <= i < |lines| && Sets(lines[i], key) then Substitute(lines, key, value)
                    else lines + [key + "=" + value])
  {
    var t, line := Unlines(lines), key + "=" + value;
    PiecesOfUnlines(lines);
    assert !Sets("", key);
    assert Grep(t, key) <==> exists i :: 0 <= i < |lines| && Sets(lines[i], key) by {
      assert forall i :: 0 <= i < |lines| ==> NewlinePieces(t)[i] == lines[i];
    }
    if Grep(t, key) {
      assert Init(lines + [""]) == lines && Last(lines + [""]) == "";
      SubstituteOneLine(lines, key, value);
      PiecesOfUnlines(Substitute(lines, key, value));
    } else {
      UnlinesAppend(lines, [line]);
      assert Unlines([line]) == line + "\n" + Unlines([]) == line + "\n";
      assert t + key + "=" + value + "\n" == t + (line + "\n");
    }
  }

  lemma {:induction false} SubstituteOneLine(lines: seq<string>, key: string, value: string)
    requires OneLine(key + "=" + value) && forall i :: 0 <= i < |lines| ==> OneLine(lines[i])
    ensures forall i :: 0 <= i < |lines| ==> OneLine(Substitute(lines, key, value)[i])
    decreases |lines|
  {
    if lines != [] { SubstituteOneLine(Init(lines), key, value); }
  }

  // ---- Deleting keys ----------------------------------------------------------------------------

  lemma {:induction false} WithoutSettles(lines: seq<string>, keys: set<string>, reader: Reader)
    requires forall key :: key in keys ==> KeyName(key)
    requires forall i :: 0 <= i < |lines| ==> Regular(lines[i], reader)
    ensures Settle(Without(lines, keys), reader) == Settle(lines, reader) - keys
    decreases |lines|
  {
    if lines != [] {
      var line, before := Last(lines), Without(Init(lines), keys);
      WithoutSettles(Init(lines), keys, reader);
      assert Regular(line, reader);
      if SetsAny(line, keys) {
        var key :| key in keys && Sets(line, key);
        assert before + [] == before;
      } else {
        SettleSnoc(before, line, reader);
      }
    }
  }

  lemma {:induction false} WithoutKept(lines: seq<string>, keys: set<string>)
    requires KeptLines(lines)
    ensures KeptLines(Without(lines, keys))
    decreases |lines|
  {
    if lines != [] { WithoutKept(Init(lines), keys); }
  }

  // The command leaves the finished lines that set none of the keys.
  lemma {:induction false} DropText(lines: seq<string>, keys: set<string>)
    requires forall i :: 0 <= i < |lines| ==> OneLine(lines[i])
    requires forall key :: key in keys ==> key != ""
    ensures DeleteCommand(Unlines(lines), keys) == Unlines(Without(lines, keys))
  {
    PiecesOfUnlines(lines);
    hide Unlines, Without, Split, OneLine;
    assert Init(lines + [""]) == lines && Last(lines + [""]) == "";
    assert forall key :: key in keys ==> !Sets("", key);
    assert Unlines(Without(lines, keys)) + "" == Unlines(Without(lines, keys));
  }

  lemma {:induction false} KeptRegularAll(lines: seq<string>)
    requires KeptLines(lines)
    ensures forall i :: 0 <= i < |lines| ==> OneLine(lines[i]) && Regular(lines[i], ParseLine)
  {
    forall i | 0 <= i < |lines| ensures Regular(lines[i], ParseLine) { KeptRegular(lines[i]); }
  }

  lemma {:induction false} DropKept(lines: seq<string>, keys: set<string>) returns (after: seq<string>)
    requires KeptLines(lines) && forall key :: key in keys ==> KeyName(key)
    ensures KeptLines(after) && DeleteCommand(Unlines(lines), keys) == Unlines(after)
    ensures Settle(after, ParseLine) == Settle(lines, ParseLine) - keys
  {
    hide KeptLines, OneLine, Unlines, Without, Settle, DeleteCommand, Regular;
    KeptRegularAll(lines);
    WithoutSettles(lines, keys, ParseLine);
    WithoutKept(lines, keys);
    DropText(lines, keys);
    after := Without(lines, keys);
  }

  // ---- Runs of edits ------------------------------------------------------------------------------

  /** Every sequence of edits of a well-kept file, however many upgrades it comes from,
      parses as the same edits of what the file parsed as; the file stays well-kept. */
  lemma {:induction false} EditsParse(t: string, edits: seq<Edit>)
    requires WellKept(t) && forall i :: 0 <= i < |edits| ==> PlainEdit(edits[i])
    ensures WellKept(EditTextAll(t, edits))
    ensures ParseEnvOf(EditTextAll(t, edits)) == EditEnvAll(ParseEnvOf(t), edits)
    decreases |edits|
  {
    if edits != [] {
      EditsParse(t, Init(edits));
      var before := EditTextAll(t, Init(edits));
      var lines :| KeptLines(lines) && before == Unlines(lines);
      ParseKept(lines);
      var after: seq<string>;
      match Last(edits) {
        case Set(key, value) => after := SetKept(lines, key, value);
        case Drop(keys) => after := DropKept(lines, keys);
      }
      ParseKept(after);
    }
  }

  // A written file is well-kept when its values have no line boundary.
  lemma {:induction false} WrittenKept(settings: Settings)
    requires Keyed(settings) && EnvText(settings).Ok?
    requires forall i :: 0 <= i < |settings| ==> OneLine(settings[i].1)
    ensures WellKept(EnvText(settings).value)
  {
    var written := SettingLines(settings).value;
    WrittenOneLine(settings);
    HeaderInert();
    forall i | 0 <= i < |written| ensures KeptLine(written[i]) {
      SettingLinesAt(settings, i);
      WrittenLineReads(settings[i].0, settings[i].1, written[i]);
    }
    assert KeptLines([HEADER] + written);
  }
}
