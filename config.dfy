/** The configuration of the battery logger: built-in defaults, overridden
    by `key = value` lines read from up to three files, later files winning,
    with a leading `~` of the log directory expanded to the home directory.
    Reading files and the environment is outside the model: a file's lines
    (or its absence) and the environment are parameters, and so is
    `filepath.Join`, which also cleans the joined path. */
module Config {
  import opened Wrappers
  import opened GoStrings

  datatype Config = Config(
    intervalSecs: int,
    intervalSecsOnAC: int,
    timezone: string,
    logDir: string,
    logFile: string,
    maxLines: int,
    trimBuffer: int,
    maxChargePercent: int)

  /** `filepath.Join` of two path elements. */
  type Join = (string, string) -> string

  /** The variables the loader consults: `$XDG_CONFIG_HOME`,
      `$XDG_STATE_HOME` (each "" when unset) and the home directory. */
  datatype Env = Env(configHome: string, stateHome: string, home: string)

  /** `$XDG_STATE_HOME`, or `~/.local/state` when it is unset or empty. */
  function XdgStateHome(env: Env, join: Join): (r: string)
    ensures env.stateHome != "" ==> r == env.stateHome
    ensures env.stateHome == "" ==> r == join(join(env.home, ".local"), "state")
  {
    if env.stateHome != "" then env.stateHome else join(join(env.home, ".local"), "state")
  }

  /** `$XDG_CONFIG_HOME`, or `~/.config` when it is unset or empty. */
  function XdgConfigHome(env: Env, join: Join): (r: string)
    ensures env.configHome != "" ==> r == env.configHome
    ensures env.configHome == "" ==> r == join(env.home, ".config")
  {
    if env.configHome != "" then env.configHome else join(env.home, ".config")
  }

  /** The built-in settings. */
  function Defaults(env: Env, join: Join): (c: Config)
    ensures c.intervalSecs == 60 && c.intervalSecsOnAC == 300
    ensures c.timezone == "Local" && c.logFile == "battery.csv"
    ensures c.logDir == join(XdgStateHome(env, join), "battery-logger")
    ensures c.maxLines == 1000 && c.trimBuffer == 100 && c.maxChargePercent == 100
  {
    Config(60, 300, "Local", join(XdgStateHome(env, join), "battery-logger"), "battery.csv", 1000, 100, 100)
  }

  /** The files consulted, in the order they are applied: the project's
      own, the user's, then the system's. */
  function ConfigPaths(env: Env, join: Join): (r: seq<string>)
    ensures |r| == 3 && r[2] == "/etc/battery-logger/config.toml"
  {
    [join(join("internal", "config"), "config.toml"),
     join(join(XdgConfigHome(env, join), "battery-logger"), "config.toml"),
     "/etc/battery-logger/config.toml"]
  }

  // ---------------------------------------------------------------------
  // One line of a configuration file

  datatype Setting = Setting(key: string, value: string)

  /** Blank lines and comment lines, after trimming. */
  predicate IsComment(line: string)
  {
    line == "" || HasPrefix(line, "//") || HasPrefix(line, "#")
  }

  predicate IsQuoted(value: string)
  {
    HasPrefix(value, "\"") && HasSuffix(value, "\"")
  }

  /** A value in double quotes loses every leading and trailing quote and
      keeps what lies between them. */
  function Unquote(value: string): (r: string)
    ensures IsQuoted(value) ==> r == [] || (r[0] != '"' && r[|r| - 1] != '"')
    ensures IsQuoted(value) ==> var i := |value| - |TrimLeftChar(value, '"')|;
      i + |r| <= |value| && value == Repeat('"', i) + r + Repeat('"', |value| - i - |r|)
    ensures !IsQuoted(value) ==> r == value
  {
    if IsQuoted(value) then TrimChar(value, '"') else value
  }

  /** The setting a line holds: none for a blank or comment line or a line
      without `=`; otherwise the text before the first `=` and the text
      after it, each trimmed, the value unquoted. */
  function ParseLine(raw: string): (r: Option<Setting>)
    ensures r.None? <==> IsComment(TrimSpace(raw)) || '=' !in TrimSpace(raw)
    ensures r.Some? ==> r.value.key == [] || (!IsSpace(r.value.key[0]) && !IsSpace(r.value.key[|r.value.key| - 1]))
  {
    var line := TrimSpace(raw);
    if IsComment(line) then None
    else match IndexOf(line, '=')
      case None => None
      case Some(i) => Some(Setting(TrimSpace(line[..i]), Unquote(TrimSpace(line[i + 1..]))))
  }

  /** The key is the text before the first `=`. */
  lemma ParseLineKeyHasNoEquals(raw: string)
    requires ParseLine(raw).Some?
    ensures '=' !in ParseLine(raw).value.key
  {
    var line := TrimSpace(raw);
    var i := IndexOf(line, '=').value;
    TrimSpaceKeeps(line[..i], '=');
  }

  predicate IsIntKey(key: string)
  {
    key in {"interval_secs", "interval_secs_on_ac", "max_lines", "trim_buffer", "max_charge_percent"}
  }

  predicate IsTextKey(key: string)
  {
    key in {"timezone", "log_dir", "log_file"}
  }

  /** A field's current value, named by its key. */
  datatype Value = Text(text: string) | Number(number: int)

  function Field(c: Config, key: string): (r: Option<Value>)
    ensures r.Some? <==> IsIntKey(key) || IsTextKey(key)
    ensures IsIntKey(key) ==> r.Some? && r.value.Number?
    ensures IsTextKey(key) ==> r.Some? && r.value.Text?
  {
    match key
    case "interval_secs" => Some(Number(c.intervalSecs))
    case "interval_secs_on_ac" => Some(Number(c.intervalSecsOnAC))
    case "timezone" => Some(Text(c.timezone))
    case "log_dir" => Some(Text(c.logDir))
    case "log_file" => Some(Text(c.logFile))
    case "max_lines" => Some(Number(c.maxLines))
    case "trim_buffer" => Some(Number(c.trimBuffer))
    case "max_charge_percent" => Some(Number(c.maxChargePercent))
    case _ => None
  }

  /** The effect of one setting on the configuration. */
  function Apply(c: Config, s: Setting): (r: Config)
  {
    match s.key
    case "interval_secs" => if Atoi(s.value).Some? then c.(intervalSecs := Atoi(s.value).value) else c
    case "interval_secs_on_ac" => if Atoi(s.value).Some? then c.(intervalSecsOnAC := Atoi(s.value).value) else c
    case "timezone" => c.(timezone := s.value)
    case "log_dir" => c.(logDir := s.value)
    case "log_file" => c.(logFile := s.value)
    case "max_lines" => if Atoi(s.value).Some? then c.(maxLines := Atoi(s.value).value) else c
    case "trim_buffer" => if Atoi(s.value).Some? then c.(trimBuffer := Atoi(s.value).value) else c
    case "max_charge_percent" => if Atoi(s.value).Some? then c.(maxChargePercent := Atoi(s.value).value) else c
    case _ => c
  }

  /** A setting changes only the field its key names: a text field takes
      the value, a number field takes it only when it reads as an integer,
      and an unknown key changes nothing. */
  lemma ApplyChangesOnlyItsKey(c: Config, s: Setting)
    ensures !IsIntKey(s.key) && !IsTextKey(s.key) ==> Apply(c, s) == c
    ensures IsTextKey(s.key) ==> Field(Apply(c, s), s.key) == Some(Text(s.value))
    ensures IsIntKey(s.key) ==>
      Field(Apply(c, s), s.key) == (if Atoi(s.value).Some? then Some(Number(Atoi(s.value).value)) else Field(c, s.key))
    ensures forall k :: k != s.key ==> Field(Apply(c, s), k) == Field(c, k)
  {
  }

  function ApplyLine(c: Config, raw: string): Config
  {
    match ParseLine(raw)
    case None => c
    case Some(s) => Apply(c, s)
  }

  /** The configuration after the lines of one file, in order. */
  function ApplyLines(c: Config, lines: seq<string>): Config
  {
    if lines == [] then c else ApplyLine(ApplyLines(c, lines[..|lines| - 1]), lines[|lines| - 1])
  }

  /** Applying two runs of lines one after the other is applying their
      concatenation. */
  lemma {:induction false} ApplyLinesAppend(c: Config, a: seq<string>, b: seq<string>)
    ensures ApplyLines(c, a + b) == ApplyLines(ApplyLines(c, a), b)
    decreases |b|
  {
    if b == [] {
      assert a + b == a;
    } else {
      var b' := b[..|b| - 1];
      assert (a + b)[..|a + b| - 1] == a + b';
      ApplyLinesAppend(c, a, b');
    }
  }

  predicate Sets(raw: string, key: string)
  {
    ParseLine(raw).Some? && ParseLine(raw).value.key == key
  }

  /** Lines that do not name a key leave its field alone. */
  lemma {:induction false} UnsetKeyKept(c: Config, lines: seq<string>, key: string)
    requires forall i :: 0 <= i < |lines| ==> !Sets(lines[i], key)
    ensures Field(ApplyLines(c, lines), key) == Field(c, key)
  {
    if lines != [] {
      var front := lines[..|lines| - 1];
      UnsetKeyKept(c, front, key);
      var before := ApplyLines(c, front);
      match ParseLine(lines[|lines| - 1])
      case None =>
      case Some(s) => ApplyChangesOnlyItsKey(before, s);
    }
  }

  lemma LastLineSets(c: Config, lines: seq<string>, key: string)
    requires lines != [] && Sets(lines[|lines| - 1], key) && IsTextKey(key)
    ensures Field(ApplyLines(c, lines), key) == Some(Text(ParseLine(lines[|lines| - 1]).value.value))
  {
    ApplyChangesOnlyItsKey(ApplyLines(c, lines[..|lines| - 1]), ParseLine(lines[|lines| - 1]).value);
  }

  /** The last line that sets a text key decides its value. */
  lemma {:induction false} LastTextSettingWins(c: Config, lines: seq<string>, j: nat, key: string)
    requires j < |lines| && Sets(lines[j], key) && IsTextKey(key)
    requires forall i :: j < i < |lines| ==> !Sets(lines[i], key)
    ensures Field(ApplyLines(c, lines), key) == Some(Text(ParseLine(lines[j]).value.value))
  {
    if |lines| == j + 1 {
      LastLineSets(c, lines, key);
    } else {
      var front := lines[..|lines| - 1];
      assert front[j] == lines[j];
      LastTextSettingWins(c, front, j, key);
      match ParseLine(lines[|lines| - 1])
      case None =>
      case Some(s) => ApplyChangesOnlyItsKey(ApplyLines(c, front), s);
    }
  }

  /** `loadConfigFile` over the lines of one file. */
  method LoadConfigFile(lines: seq<string>, c0: Config) returns (c: Config)
    ensures c == ApplyLines(c0, lines)
  {
    c := c0;
    var i := 0;
    while i < |lines|
      invariant 0 <= i <= |lines|
      invariant c == ApplyLines(c0, lines[..i])
    {
      assert lines[..i + 1][..i] == lines[..i];
      var parsed := ParseLine(lines[i]);
      i := i + 1;
      if parsed.None? {
        continue;
      }
      c := Apply(c, parsed.value);
    }
    assert lines[..i] == lines;
  }

  // ---------------------------------------------------------------------
  // Loading

  /** What opening and scanning one file gives: it is missing, or the lines
      read before the scan stopped, with the error that stopped it. */
  datatype FileRead = Missing | Read(lines: seq<string>, err: Option<string>)

  /** A log directory starting with `~` is taken relative to home. */
  function ExpandHome(c: Config, home: string, join: Join): (r: Config)
    ensures HasPrefix(c.logDir, "~") ==> r == c.(logDir := join(home, c.logDir[1..]))
    ensures !HasPrefix(c.logDir, "~") ==> r == c
  {
    if HasPrefix(c.logDir, "~") then c.(logDir := join(home, TrimPrefix(c.logDir, "~"))) else c
  }

  /** The files from the `k`-th on applied to `c`: a missing file is
      skipped, and the first failed one stops loading with its error and
      the settings read so far. */
  function LoadFrom(c: Config, files: seq<FileRead>): (r: (Config, Option<string>))
    decreases |files|
  {
    if files == [] then (c, None)
    else match files[0]
      case Missing => LoadFrom(c, files[1..])
      case Read(lines, None) => LoadFrom(ApplyLines(c, lines), files[1..])
      case Read(lines, Some(e)) => (ApplyLines(c, lines), Some(e))
  }

  function LinesOf(f: FileRead): seq<string>
  {
    if f.Read? then f.lines else []
  }

  /** All the lines of files that were read in full. */
  function AllLines(files: seq<FileRead>): seq<string>
  {
    if files == [] then [] else LinesOf(files[0]) + AllLines(files[1..])
  }

  /** When no file fails, loading applies every line of every file in file
      order, so a later file overrides an earlier one. */
  lemma {:induction false} LoadFromIsApplyAll(c: Config, files: seq<FileRead>)
    requires forall k :: 0 <= k < |files| ==> files[k].Missing? || files[k].err.None?
    ensures LoadFrom(c, files) == (ApplyLines(c, AllLines(files)), None)
    decreases |files|
  {
    if files != [] {
      var rest := files[1..];
      assert forall k :: 0 <= k < |rest| ==> rest[k] == files[k + 1];
      match files[0]
      case Missing =>
        LoadFromIsApplyAll(c, rest);
        assert AllLines(files) == [] + AllLines(rest);
        assert [] + AllLines(rest) == AllLines(rest);
      case Read(lines, _) =>
        LoadFromIsApplyAll(ApplyLines(c, lines), rest);
        ApplyLinesAppend(c, lines, AllLines(rest));
    }
  }

  /** `Load` given what reading each configuration file gave, in the
      order of `ConfigPaths`: the defaults, then each file in order, then
      the expansion of `~`; a file that fails stops it with its error. */
  function LoadSpec(files: seq<FileRead>, env: Env, join: Join): (r: (Config, Option<string>))
  {
    var (c, err) := LoadFrom(Defaults(env, join), files);
    if err.Some? then (c, err) else (ExpandHome(c, env.home, join), None)
  }

  function ReadAll(read: string -> FileRead, paths: seq<string>): (r: seq<FileRead>)
    ensures |r| == |paths| && forall k :: 0 <= k < |paths| ==> r[k] == read(paths[k])
  {
    seq(|paths|, k requires 0 <= k < |paths| => read(paths[k]))
  }

  method Load(read: string -> FileRead, env: Env, join: Join) returns (c: Config, err: Option<string>)
    ensures (c, err) == LoadSpec(ReadAll(read, ConfigPaths(env, join)), env, join)
  {
    c := Defaults(env, join);
    var paths := ConfigPaths(env, join);
    ghost var files := ReadAll(read, paths);
    var i := 0;
    while i < |paths|
      invariant 0 <= i <= |paths|
      invariant LoadFrom(Defaults(env, join), files) == LoadFrom(c, files[i..])
    {
      assert files[i..][1..] == files[i + 1..];
      var f := read(paths[i]);
      i := i + 1;
      match f
      case Missing =>
      case Read(lines, e) =>
        c := LoadConfigFile(lines, c);
        if e.Some? {
          return c, e;
        }
    }
    if HasPrefix(c.logDir, "~") {
      c := c.(logDir := join(env.home, TrimPrefix(c.logDir, "~")));
    }
    err := None;
  }

  lemma {:induction false} AllLinesSnoc(files: seq<FileRead>)
    requires files != []
    ensures AllLines(files) == AllLines(files[..|files| - 1]) + LinesOf(files[|files| - 1])
  {
    if |files| == 1 {
      assert files[1..] == [];
      assert files[..0] == [];
      assert AllLines(files) == LinesOf(files[0]) + [];
    } else {
      var rest, front := files[1..], files[..|files| - 1];
      AllLinesSnoc(rest);
      assert rest[..|rest| - 1] == front[1..];
      assert rest[|rest| - 1] == files[|files| - 1];
      assert AllLines(front) == LinesOf(files[0]) + AllLines(front[1..]);
      assert AllLines(files) == LinesOf(files[0]) + AllLines(rest);
    }
  }

  /** Expanding `~` touches only the log directory. */
  lemma ExpandHomeKeeps(c: Config, home: string, join: Join, key: string)
    requires key != "log_dir"
    ensures Field(ExpandHome(c, home, join), key) == Field(c, key)
  {
  }

  /** With every file read in full, the last setting of a text key other
      than the log directory in the last file (the system's) decides it,
      whatever the earlier files say. */
  lemma LastFileWins(files: seq<FileRead>, env: Env, join: Join, j: nat, key: string)
    requires forall k :: 0 <= k < |files| ==> files[k].Missing? || files[k].err.None?
    requires files != [] && files[|files| - 1].Read?
    requires var ls := files[|files| - 1].lines;
      j < |ls| && Sets(ls[j], key) && IsTextKey(key) && key != "log_dir"
      && forall i :: j < i < |ls| ==> !Sets(ls[i], key)
    ensures Field(LoadSpec(files, env, join).0, key)
         == Some(Text(ParseLine(files[|files| - 1].lines[j]).value.value))
  {
    LoadFromIsApplyAll(Defaults(env, join), files);
    AllLinesSnoc(files);
    var sys := files[|files| - 1].lines;
    var front := AllLines(files[..|files| - 1]);
    ApplyLinesAppend(Defaults(env, join), front, sys);
    LastTextSettingWins(ApplyLines(Defaults(env, join), front), sys, j, key);
    ExpandHomeKeeps(ApplyLines(Defaults(env, join), front + sys), env.home, join, key);
  }

  lemma IndexOfAfter(key: string, rest: string)
    requires '=' !in key
    ensures IndexOf(key + "=" + rest, '=') == Some(|key|)
  {
    var line := key + "=" + rest;
    assert line[|key|] == '=';
    assert line[..|key|] == key;
  }

  /** Quoting is undone: a value written in one pair of quotes reads back
      as itself when it has no quote at either end. */
  lemma UnquoteOfQuoted(v: string)
    requires v == [] || (v[0] != '"' && v[|v| - 1] != '"')
    ensures Unquote("\"" + v + "\"") == v
  {
    var w := "\"" + v + "\"";
    assert w == ['"'] + v + ['"'];
    assert IsQuoted(w) by {
      assert w[..1] == "\"";
      assert w[|w| - 1..] == "\"";
    }
    TrimCharOfWrapped(v, '"');
  }

  /** A line `key=value` with a trimmed key and value parses to the key and
      the unquoted value. */
  lemma ParseLineOfPair(key: string, value: string)
    requires key != [] && key[0] != '#' && key[0] != '/' && '=' !in key
    requires !IsSpace(key[0]) && !IsSpace(key[|key| - 1])
    requires value == [] || (!IsSpace(value[0]) && !IsSpace(value[|value| - 1]))
    ensures ParseLine(key + "=" + value) == Some(Setting(key, Unquote(value)))
  {
    var line := key + "=" + value;
    assert line[0] == key[0];
    assert line[|line| - 1] == if value == [] then '=' else value[|value| - 1];
    TrimSpaceOfTrimmed(line);
    assert !IsComment(line) by {
      assert line[..1][0] == key[0];
    }
    IndexOfAfter(key, value);
    assert line[..|key|] == key;
    assert line[|key| + 1..] == value;
    TrimSpaceOfTrimmed(key);
    TrimSpaceOfTrimmed(value);
  }

  /** The inverse of `ParseLine` for a plain line `key=value`. */
  lemma ParseLineOfSetting(key: string, value: string)
    requires key != [] && key[0] != '#' && key[0] != '/' && '=' !in key
    requires !IsSpace(key[0]) && !IsSpace(key[|key| - 1])
    requires value == [] || (!IsSpace(value[0]) && !IsSpace(value[|value| - 1]) && !IsQuoted(value))
    ensures ParseLine(key + "=" + value) == Some(Setting(key, value))
  {
    ParseLineOfPair(key, value);
  }

  /** The inverse of `ParseLine` for a quoted line `key="value"`. */
  lemma ParseLineOfQuotedSetting(key: string, value: string)
    requires key != [] && key[0] != '#' && key[0] != '/' && '=' !in key
    requires !IsSpace(key[0]) && !IsSpace(key[|key| - 1])
    requires value == [] || (value[0] != '"' && value[|value| - 1] != '"')
    ensures ParseLine(key + "=" + "\"" + value + "\"") == Some(Setting(key, value))
  {
    var quoted := "\"" + value + "\"";
    assert key + "=" + "\"" + value + "\"" == key + "=" + quoted;
    ParseLineOfPair(key, quoted);
    UnquoteOfQuoted(value);
  }
}
