/** The in-memory editing behind the admin UI's configuration API
    (admin_ui/backend/api/config.py): reading a `.env` file into a dictionary, merging
    a dictionary of settings back into the file's lines, and setting one field of one
    provider in the YAML configuration. The `.env` file is given as its text, which is
    read into lines as Python's text mode does and written back as the lines one after
    the other; the YAML file is given as its parsed document. */
module ConfigApi {
  import opened Wrappers
  import opened Text

  /** The `HTTPException` a handler raises. */
  datatype HttpError = HttpError(status: int, detail: string)

  // ===========================================================================
  // Text files as Python reads and writes them

  /** A line break for Python's text mode with universal newlines. */
  predicate IsBreak(c: char)
  {
    c == '\n' || c == '\r'
  }

  /** No line break anywhere in `s`. */
  predicate NoBreak(s: string)
  {
    forall i | 0 <= i < |s| :: !IsBreak(s[i])
  }

  /** The index of the first line break in `s`, or `|s|` when there is none. */
  function BreakIndex(s: string): (i: nat)
    ensures i <= |s| && NoBreak(s[..i]) && (i < |s| ==> IsBreak(s[i]))
    decreases |s|
  {
    if s == [] || IsBreak(s[0]) then 0
    else
      var j := BreakIndex(s[1..]);
      assert s[..1 + j] == [s[0]] + s[1..][..j];
      1 + j
  }

  /** Python's reading of a text file (`f.readlines()`, or `for line in f`): "\r\n" and
      a lone "\r" read as "\n", the text is cut after each "\n", which stays on its
      line, and text after the last break is a last line without one. */
  function FileLines(text: string): seq<string>
    decreases |text|
  {
    if text == [] then []
    else
      var e := BreakIndex(text);
      if e == |text| then [text]
      else
        var next := if text[e] == '\r' && e + 1 < |text| && text[e + 1] == '\n' then e + 2 else e + 1;
        [text[..e] + "\n"] + FileLines(text[next..])
  }

  /** What `f.writelines(lines)` writes: the lines one after the other. */
  function Written(lines: seq<string>): string
    decreases |lines|
  {
    if lines == [] then "" else lines[0] + Written(lines[1..])
  }

  /** A line as reading gives it: not empty, and a break only as its last character,
      which is then "\n". */
  predicate LineShaped(line: string)
  {
    line != "" && NoBreak(line[..|line| - 1]) && line[|line| - 1] != '\r'
  }

  /** The line ends with "\n". */
  predicate EndsLine(line: string)
  {
    line != "" && line[|line| - 1] == '\n'
  }

  /** Lines as reading a text file gives them: each shaped so, and each but the last
      ending with "\n". */
  predicate ReadShaped(lines: seq<string>)
  {
    forall i | 0 <= i < |lines| :: LineShaped(lines[i]) && (i < |lines| - 1 ==> EndsLine(lines[i]))
  }

  /** The first break found is the first break there is. */
  lemma {:induction false} BreakIndexAt(s: string, n: nat)
    requires n <= |s| && NoBreak(s[..n]) && (n < |s| ==> IsBreak(s[n]))
    ensures BreakIndex(s) == n
    decreases n
  {
    if n > 0 {
      assert s[..n][0] == s[0];
      var t := s[1..];
      forall i | 0 <= i < n - 1 ensures !IsBreak(t[i]) {
        assert t[i] == s[..n][i + 1];
      }
      BreakIndexAt(t, n - 1);
    }
  }

  /** Every read gives lines of that shape. */
  lemma {:induction false} FileLinesShaped(text: string)
    ensures ReadShaped(FileLines(text))
    decreases |text|
  {
    if text != [] {
      var e := BreakIndex(text);
      if e == |text| {
        assert text[..e] == text;
        assert text[..|text| - 1] == text[..e][..|text| - 1];
      } else {
        var next := if text[e] == '\r' && e + 1 < |text| && text[e + 1] == '\n' then e + 2 else e + 1;
        var line := text[..e] + "\n";
        var rest := FileLines(text[next..]);
        FileLinesShaped(text[next..]);
        assert line[..|line| - 1] == text[..e];
        assert FileLines(text) == [line] + rest;
        forall i | 0 <= i < |rest| + 1
          ensures LineShaped(([line] + rest)[i]) && (i < |rest| ==> EndsLine(([line] + rest)[i]))
        {
          if i > 0 {
            assert ([line] + rest)[i] == rest[i - 1];
          }
        }
      }
    }
  }

  /** Reading back what was written gives the same lines, when they are shaped as read
      lines. */
  lemma {:induction false} WrittenReadsBack(lines: seq<string>)
    requires ReadShaped(lines)
    ensures FileLines(Written(lines)) == lines
    decreases |lines|
  {
    if lines != [] {
      var line, rest := lines[0], lines[1..];
      assert ReadShaped(rest) by {
        forall i | 0 <= i < |rest| ensures LineShaped(rest[i]) && (i < |rest| - 1 ==> EndsLine(rest[i])) {
          assert rest[i] == lines[i + 1];
        }
      }
      WrittenReadsBack(rest);
      if EndsLine(line) {
        FileLinesCons(line, Written(rest));
      } else {
        FileLinesLast(line);
      }
      assert lines == [line] + rest;
    }
  }

  /** A read line ending with "\n" reads back as itself, followed by the rest. */
  lemma FileLinesCons(line: string, rest: string)
    requires LineShaped(line) && EndsLine(line)
    ensures FileLines(line + rest) == [line] + FileLines(rest)
  {
    var text, n := line + rest, |line| - 1;
    assert text[..n] == line[..n];
    BreakIndexAt(text, n);
    assert text[..n] + "\n" == line;
    assert text[n + 1..] == rest;
  }

  /** A read line without "\n" is a whole text of one line. */
  lemma FileLinesLast(line: string)
    requires LineShaped(line) && !EndsLine(line)
    ensures FileLines(line + Written([])) == [line]
  {
    assert line + Written([]) == line;
    assert NoBreak(line[..|line|]) by {
      assert line[..|line|] == line;
      forall j | 0 <= j < |line| - 1 ensures !IsBreak(line[j]) {
        assert line[..|line| - 1][j] == line[j];
      }
    }
    BreakIndexAt(line, |line|);
  }

  // ===========================================================================
  // Reading `.env` (get_env_config)

  /** A stripped line that carries a setting: neither blank nor a `#` comment. */
  predicate IsContent(t: string)
  {
    t != "" && t[0] != '#'
  }

  /** Python `t.split('=', 1)` when `t` holds an '=': the text before the first '='
      and the text after it. */
  function SplitSetting(t: string): (kv: (string, string))
    requires '=' in t
    ensures t == kv.0 + "=" + kv.1
    ensures '=' !in kv.0
  {
    var i := IndexOf(t, '=');
    assert t == t[..i] + "=" + t[i + 1..];
    (t[..i], t[i + 1..])
  }

  /** What `get_env_config` makes of one line. */
  datatype EnvLine =
    | Ignored                              // blank or a `#` comment
    | Pair(key: string, value: string)     // `key=value`, split at the first '='
    | Unpackable                           // content without '=': the unpacking raises

  function ReadLine(line: string): (r: EnvLine)
    ensures r.Pair? ==> '=' !in r.key
  {
    var t := Strip(line);
    if !IsContent(t) then Ignored
    else if '=' !in t then Unpackable
    else Pair(SplitSetting(t).0, SplitSetting(t).1)
  }

  /** The ValueError of unpacking a one-element split, turned into HTTP 500. */
  const UnpackError := HttpError(500, "not enough values to unpack (expected 2, got 1)")

  /** The dictionary built from `lines`, each line read by `read`; later keys overwrite
      earlier ones and the first unreadable line stops the reading. */
  function ReadEnv(lines: seq<string>, read: string -> EnvLine): Result<map<string, string>, HttpError>
    decreases |lines|
  {
    if lines == [] then Success(map[])
    else
      var prev := ReadEnv(lines[..|lines| - 1], read);
      var last := read(lines[|lines| - 1]);
      if prev.Failure? then prev
      else if last.Unpackable? then Failure(UnpackError)
      else if last.Pair? then Success(prev.value[last.key := last.value])
      else prev
  }

  /** The dictionary `get_env_config` returns for the lines of an existing file. */
  function ParseEnv(lines: seq<string>): Result<map<string, string>, HttpError>
  {
    ReadEnv(lines, ReadLine)
  }

  /** Python `get_env_config` on the file's text: a missing file reads as no settings,
      and an existing one is read line by line in text mode. */
  method GetEnvConfig(file: Option<string>) returns (r: Result<map<string, string>, HttpError>)
    ensures file.None? ==> r == Success(map[])
    ensures file.Some? ==> r == ParseEnv(FileLines(file.value))
  {
    if file.None? {
      return Success(map[]);
    }
    r := ReadLines(FileLines(file.value), ReadLine);
  }

  /** The loop of `get_env_config` over the file's lines, each line read by `read`. */
  method ReadLines(lines: seq<string>, read: string -> EnvLine) returns (r: Result<map<string, string>, HttpError>)
    ensures r == ReadEnv(lines, read)
  {
    var env: map<string, string> := map[];
    var i := 0;
    while i < |lines|
      invariant 0 <= i <= |lines|
      invariant ReadEnv(lines[..i], read) == Success(env)
    {
      ReadEnvPrefix(lines, read, i);
      var e := read(lines[i]);
      if e.Unpackable? {
        ReadEnvFailureSticks(lines, read, i + 1);
        return Failure(UnpackError);
      }
      if e.Pair? {
        env := env[e.key := e.value];
      }
      i := i + 1;
    }
    assert lines[..|lines|] == lines;
    r := Success(env);
  }

  /** Reading one more line: the fold's step. */
  lemma ReadEnvPrefix(lines: seq<string>, read: string -> EnvLine, i: nat)
    requires i < |lines|
    ensures var prev := ReadEnv(lines[..i], read);
            ReadEnv(lines[..i + 1], read) ==
              if prev.Failure? then prev
              else if read(lines[i]).Unpackable? then Failure(UnpackError)
              else if read(lines[i]).Pair? then Success(prev.value[read(lines[i]).key := read(lines[i]).value])
              else prev
  {
    assert lines[..i + 1][..i] == lines[..i];
  }

  /** Once a prefix fails, so does every longer prefix, with the same error. */
  lemma {:induction false} ReadEnvFailureSticks(lines: seq<string>, read: string -> EnvLine, n: nat)
    requires n <= |lines| && ReadEnv(lines[..n], read).Failure?
    ensures ReadEnv(lines, read) == ReadEnv(lines[..n], read)
    decreases |lines| - n
  {
    if n < |lines| {
      assert lines[..n + 1][..n] == lines[..n];
      ReadEnvFailureSticks(lines, read, n + 1);
    } else {
      assert lines[..n] == lines;
    }
  }

  /** Reading fails exactly when some line cannot be unpacked, and the error is always
      HTTP 500. */
  lemma {:induction false} ReadEnvFails(lines: seq<string>, read: string -> EnvLine)
    ensures ReadEnv(lines, read).Failure? <==> exists i | 0 <= i < |lines| :: read(lines[i]).Unpackable?
    ensures ReadEnv(lines, read).Failure? ==> ReadEnv(lines, read).error == UnpackError
    decreases |lines|
  {
    if lines != [] {
      var init := lines[..|lines| - 1];
      ReadEnvFails(init, read);
      if exists i | 0 <= i < |init| :: read(init[i]).Unpackable? {
        var i :| 0 <= i < |init| && read(init[i]).Unpackable?;
        assert init[i] == lines[i];
      }
      if exists i | 0 <= i < |lines| :: read(lines[i]).Unpackable? {
        var i :| 0 <= i < |lines| && read(lines[i]).Unpackable?;
        if i < |init| {
          assert init[i] == lines[i];
        }
      }
    }
  }

  /** A successful read holds exactly the keys some line sets. */
  lemma {:induction false} ReadEnvKeys(lines: seq<string>, read: string -> EnvLine, k: string)
    requires ReadEnv(lines, read).Success?
    ensures k in ReadEnv(lines, read).value <==>
      exists i | 0 <= i < |lines| :: read(lines[i]).Pair? && read(lines[i]).key == k
    decreases |lines|
  {
    if lines != [] {
      var init := lines[..|lines| - 1];
      ReadEnvKeys(init, read, k);
      if exists i | 0 <= i < |init| :: read(init[i]).Pair? && read(init[i]).key == k {
        var i :| 0 <= i < |init| && read(init[i]).Pair? && read(init[i]).key == k;
        assert init[i] == lines[i];
      }
      if exists i | 0 <= i < |lines| :: read(lines[i]).Pair? && read(lines[i]).key == k {
        var i :| 0 <= i < |lines| && read(lines[i]).Pair? && read(lines[i]).key == k;
        if i < |init| {
          assert init[i] == lines[i];
        }
      }
    }
  }

  /** A later line overrides an earlier one: when line `i` sets `k` to `v` and every
      later line setting `k` also sets it to `v`, the read value of `k` is `v`. */
  lemma {:induction false} ReadEnvLast(lines: seq<string>, read: string -> EnvLine, i: nat, k: string, v: string)
    requires ReadEnv(lines, read).Success?
    requires i < |lines| && read(lines[i]) == Pair(k, v)
    requires forall j | i < j < |lines| && read(lines[j]).Pair? && read(lines[j]).key == k ::
      read(lines[j]).value == v
    ensures k in ReadEnv(lines, read).value && ReadEnv(lines, read).value[k] == v
    decreases |lines|
  {
    var init := lines[..|lines| - 1];
    if i < |init| {
      forall j | i < j < |init| && read(init[j]).Pair? && read(init[j]).key == k
        ensures read(init[j]).value == v
      {
        assert init[j] == lines[j];
      }
      ReadEnvLast(init, read, i, k, v);
    }
  }

  // ===========================================================================
  // Merging settings into `.env` (update_env)

  /** The key `update_env` records for a line: the stripped text before the first '='
      of a stripped content line. */
  function LineKey(line: string): (key: Option<string>)
    ensures key.Some? ==> '=' !in key.value
  {
    var t := Strip(line);
    if IsContent(t) && '=' in t then Some(Strip(SplitSetting(t).0)) else None
  }

  /** The map from each key `key` finds in `lines` to the index of the last line where
      it finds it. */
  function KeyIndex(lines: seq<string>, key: string -> Option<string>): (m: map<string, nat>)
    ensures forall k | k in m :: m[k] < |lines|
    decreases |lines|
  {
    if lines == [] then map[]
    else
      var m := KeyIndex(lines[..|lines| - 1], key);
      var last := key(lines[|lines| - 1]);
      if last.Some? then m[last.value := |lines| - 1] else m
  }

  /** `key_line_map`. */
  function KeyLines(lines: seq<string>): map<string, nat>
  {
    KeyIndex(lines, LineKey)
  }

  /** The index map points each key at the LAST line carrying it, and holds every key
      some line carries. */
  lemma {:induction false} KeyIndexLast(lines: seq<string>, key: string -> Option<string>, k: string)
    ensures k in KeyIndex(lines, key) <==> exists i | 0 <= i < |lines| :: key(lines[i]) == Some(k)
    ensures k in KeyIndex(lines, key) ==>
      && key(lines[KeyIndex(lines, key)[k]]) == Some(k)
      && forall j | KeyIndex(lines, key)[k] < j < |lines| :: key(lines[j]) != Some(k)
    decreases |lines|
  {
    if lines != [] {
      var init := lines[..|lines| - 1];
      KeyIndexLast(init, key, k);
      if exists i | 0 <= i < |init| :: key(init[i]) == Some(k) {
        var i :| 0 <= i < |init| && key(init[i]) == Some(k);
        assert init[i] == lines[i];
      }
      if exists i | 0 <= i < |lines| :: key(lines[i]) == Some(k) {
        var i :| 0 <= i < |lines| && key(lines[i]) == Some(k);
        if i < |init| {
          assert init[i] == lines[i];
        }
      }
      if k in KeyIndex(lines, key) && key(lines[|lines| - 1]) != Some(k) {
        var at := KeyIndex(init, key)[k];
        assert init[at] == lines[at];
        forall j | at < j < |lines| ensures key(lines[j]) != Some(k) {
          if j < |init| {
            assert init[j] == lines[j];
          }
        }
      }
    }
  }

  /** `key_line_map` holds a key iff some line carries it, and points it at the last
      such line. */
  lemma KeyLinesLast(lines: seq<string>, k: string)
    ensures k in KeyLines(lines) <==> exists i | 0 <= i < |lines| :: LineKey(lines[i]) == Some(k)
    ensures k in KeyLines(lines) ==>
      && LineKey(lines[KeyLines(lines)[k]]) == Some(k)
      && forall j | KeyLines(lines)[k] < j < |lines| :: LineKey(lines[j]) != Some(k)
  {
    KeyIndexLast(lines, LineKey, k);
  }

  /** Line `i` after `update_env`'s newline fix: a last line without a trailing newline
      gets one. */
  function KeptLine(lines: seq<string>, i: nat): string
    requires i < |lines|
  {
    if i == |lines| - 1 && !EndsWith(lines[i], "\n") then lines[i] + "\n" else lines[i]
  }

  /** The lines after the newline fix. */
  function Terminated(lines: seq<string>): (r: seq<string>)
    ensures |r| == |lines|
    ensures forall i | 0 <= i < |lines| :: r[i] == KeptLine(lines, i)
  {
    if lines != [] && !EndsWith(lines[|lines| - 1], "\n")
    then lines[..|lines| - 1] + [lines[|lines| - 1] + "\n"]
    else lines
  }

  /** The line `update_env` writes for a setting. */
  function SettingLine(key: string, value: string): string
  {
    key + "=" + value + "\n"
  }

  /** The request's keys are distinct: it is a dictionary. */
  predicate DistinctKeys(updates: seq<(string, string)>)
  {
    forall i, j | 0 <= i < j < |updates| :: updates[i].0 != updates[j].0
  }

  /** The value the request gives `key`, if any. */
  function Lookup(updates: seq<(string, string)>, key: string): (v: Option<string>)
    decreases |updates|
  {
    if updates == [] then None
    else if updates[|updates| - 1].0 == key then Some(updates[|updates| - 1].1)
    else Lookup(updates[..|updates| - 1], key)
  }

  /** The line at index `i` of the file after the merge, when `key` gives each line's
      key: the last line carrying a key the request sets is replaced by that setting;
      every other line is kept. */
  function MergedLine(lines: seq<string>, updates: seq<(string, string)>, key: string -> Option<string>, i: nat): string
    requires i < |lines|
  {
    var k := key(lines[i]);
    var m := KeyIndex(lines, key);
    if k.Some? && k.value != "" && k.value in m && m[k.value] == i && Lookup(updates, k.value).Some?
    then SettingLine(k.value, Lookup(updates, k.value).value)
    else KeptLine(lines, i)
  }

  /** The lines appended for the request's non-empty keys that no line carries, in the
      request's order. */
  function Appended(updates: seq<(string, string)>, known: map<string, nat>): seq<string>
    decreases |updates|
  {
    if updates == [] then []
    else
      var (k, v) := updates[|updates| - 1];
      Appended(updates[..|updates| - 1], known) + (if k != "" && k !in known then [SettingLine(k, v)] else [])
  }

  /** The old lines after the merge, each kept or replaced in place. */
  function MergedLines(lines: seq<string>, updates: seq<(string, string)>, key: string -> Option<string>)
    : (r: seq<string>)
    ensures |r| == |lines|
    ensures forall i | 0 <= i < |lines| :: r[i] == MergedLine(lines, updates, key, i)
  {
    MergedPrefix(lines, updates, key, |lines|)
  }

  /** The first `n` lines of the merge. */
  function MergedPrefix(lines: seq<string>, updates: seq<(string, string)>, key: string -> Option<string>, n: nat)
    : (r: seq<string>)
    requires n <= |lines|
    ensures |r| == n
    ensures forall i | 0 <= i < n :: r[i] == MergedLine(lines, updates, key, i)
  {
    if n == 0 then [] else MergedPrefix(lines, updates, key, n - 1) + [MergedLine(lines, updates, key, n - 1)]
  }

  /** `newLines` is the merge of `updates` into `lines` when `key` gives each line's key:
      the old lines, each either kept or replaced in place, followed by the appended
      settings. */
  predicate MergedFrom(lines: seq<string>, updates: seq<(string, string)>, key: string -> Option<string>,
                       newLines: seq<string>)
  {
    newLines == MergedLines(lines, updates, key) + Appended(updates, KeyIndex(lines, key))
  }

  /** `newLines` is what `update_env` writes for `lines` and `updates`. */
  predicate UpdatedFrom(lines: seq<string>, updates: seq<(string, string)>, newLines: seq<string>)
  {
    MergedFrom(lines, updates, LineKey, newLines)
  }

  /** Builds `key_line_map`. */
  method KeyLineMap(lines: seq<string>) returns (keyMap: map<string, nat>)
    ensures keyMap == KeyLines(lines)
  {
    keyMap := IndexLines(lines, LineKey);
  }

  /** The loop building the map from each key `key` finds to its last line. */
  method IndexLines(lines: seq<string>, key: string -> Option<string>) returns (keyMap: map<string, nat>)
    ensures keyMap == KeyIndex(lines, key)
  {
    keyMap := map[];
    var i := 0;
    while i < |lines|
      invariant 0 <= i <= |lines|
      invariant keyMap == KeyIndex(lines[..i], key)
    {
      assert lines[..i + 1][..i] == lines[..i];
      var k := key(lines[i]);
      if k.Some? {
        keyMap := keyMap[k.value := i];
      }
      i := i + 1;
    }
    assert lines[..|lines|] == lines;
  }

  /** The lines `update_env` reads: none when the file does not exist. */
  function OldLines(file: Option<string>): seq<string>
  {
    if file.Some? then FileLines(file.value) else []
  }

  /** Python `update_env` without its backup: `file` is the file's text, if it exists, and
      `updates` the request's dictionary items. The merged lines are written one after
      the other as the new text. */
  method UpdateEnv(file: Option<string>, updates: seq<(string, string)>) returns (newLines: seq<string>, written: string)
    requires DistinctKeys(updates)
    ensures UpdatedFrom(OldLines(file), updates, newLines)
    ensures written == Written(newLines)
  {
    var lines := OldLines(file);
    var keyMap := KeyLineMap(lines);
    newLines := MergeSettings(lines, updates, keyMap);
    MergeFoldClosed(lines, updates, LineKey, |updates|);
    assert updates[..|updates|] == updates;
    written := Written(newLines);
  }

  /** The merge as `update_env`'s loop performs it, item by item, with `known` the key
      map built before the loop. */
  function MergeFold(lines: seq<string>, updates: seq<(string, string)>, known: map<string, nat>, j: nat)
    : (r: seq<string>)
    requires j <= |updates| && forall k | k in known :: known[k] < |lines|
    ensures |r| >= |lines|
    decreases j
  {
    if j == 0 then Terminated(lines)
    else
      var prev := MergeFold(lines, updates, known, j - 1);
      var (k, v) := updates[j - 1];
      if k == "" then prev
      else if k in known then prev[known[k] := SettingLine(k, v)]
      else prev + [SettingLine(k, v)]
  }

  /** The loop of `update_env` after `key_line_map` is built: fix the last newline, then
      replace or append one line per non-empty key. */
  method MergeSettings(lines: seq<string>, updates: seq<(string, string)>, known: map<string, nat>)
    returns (newLines: seq<string>)
    requires DistinctKeys(updates) && forall k | k in known :: known[k] < |lines|
    ensures newLines == MergeFold(lines, updates, known, |updates|)
  {
    var keyMap := known;
    newLines := lines;
    if newLines != [] && !EndsWith(newLines[|newLines| - 1], "\n") {
      newLines := newLines[|newLines| - 1 := newLines[|newLines| - 1] + "\n"];
    }
    assert newLines == Terminated(lines);
    var j := 0;
    while j < |updates|
      invariant 0 <= j <= |updates|
      invariant forall k | k in known :: k in keyMap && keyMap[k] == known[k]
      invariant forall p | j <= p < |updates| :: updates[p].0 in keyMap <==> updates[p].0 in known
      invariant newLines == MergeFold(lines, updates, known, j)
    {
      var (k, value) := updates[j];
      if k != "" {
        var content := SettingLine(k, value);
        if k in keyMap {
          newLines := newLines[keyMap[k] := content];
        } else {
          newLines := newLines + [content];
          keyMap := keyMap[k := |newLines| - 1];
        }
      }
      j := j + 1;
    }
  }

  /** The item-by-item merge is the merge: each old line kept or replaced by the
      request's last setting of its key, then the new keys' lines. */
  lemma {:induction false} MergeFoldClosed(lines: seq<string>, updates: seq<(string, string)>,
                                           key: string -> Option<string>, j: nat)
    requires j <= |updates|
    ensures MergeFold(lines, updates, KeyIndex(lines, key), j) == MergedUpTo(lines, updates, key, j)
    decreases j
  {
    if j == 0 {
      MergedLinesNone(lines, updates, key);
    } else {
      MergeFoldClosed(lines, updates, key, j - 1);
      MergeItem(lines, updates, key, j - 1);
    }
  }

  /** The merge of the first `j` request items. */
  function MergedUpTo(lines: seq<string>, updates: seq<(string, string)>, key: string -> Option<string>, j: nat)
    : seq<string>
    requires j <= |updates|
  {
    MergedLines(lines, updates[..j], key) + Appended(updates[..j], KeyIndex(lines, key))
  }

  /** What one more request item does to the merged file: nothing for an empty key,
      replacing the last line that carries a known key, appending a line otherwise. */
  lemma MergeItem(lines: seq<string>, updates: seq<(string, string)>, key: string -> Option<string>, j: nat)
    requires j < |updates|
    ensures var (k, v) := updates[j];
      var m := KeyIndex(lines, key);
      var before := MergedUpTo(lines, updates, key, j);
      MergedUpTo(lines, updates, key, j + 1)
      == if k == "" then before
         else if k in m then before[m[k] := SettingLine(k, v)]
         else before + [SettingLine(k, v)]
  {
    var (k, v) := updates[j];
    var m := KeyIndex(lines, key);
    MergedLinesStep(lines, updates, key, j);
    AppendedStep(updates, m, j);
    if k != "" && k in m {
      UpdateInPrefix(MergedLines(lines, updates[..j], key), Appended(updates[..j], m), m[k], SettingLine(k, v));
    }
  }

  /** Replacing an element of the first part of a concatenation. */
  lemma UpdateInPrefix(prefix: seq<string>, tail: seq<string>, at: nat, x: string)
    requires at < |prefix|
    ensures (prefix + tail)[at := x] == prefix[at := x] + tail
  {
  }

  /** Before any request item, the merge only fixes the last newline. */
  lemma MergedLinesNone(lines: seq<string>, updates: seq<(string, string)>, key: string -> Option<string>)
    ensures MergedUpTo(lines, updates, key, 0) == Terminated(lines)
  {
    assert updates[..0] == [];
    assert MergedLines(lines, [], key) == Terminated(lines);
  }

  /** One more request item replaces at most the last line carrying its key. */
  lemma MergedLinesStep(lines: seq<string>, updates: seq<(string, string)>, key: string -> Option<string>, j: nat)
    requires j < |updates|
    ensures var (k, v) := updates[j];
      var m := KeyIndex(lines, key);
      MergedLines(lines, updates[..j + 1], key)
      == if k != "" && k in m then MergedLines(lines, updates[..j], key)[m[k] := SettingLine(k, v)]
         else MergedLines(lines, updates[..j], key)
  {
    var (k, v) := updates[j];
    var m := KeyIndex(lines, key);
    var before := MergedLines(lines, updates[..j], key);
    var after := MergedLines(lines, updates[..j + 1], key);
    forall i | 0 <= i < |lines|
      ensures after[i] == if k != "" && k in m && m[k] == i then SettingLine(k, v) else before[i]
    {
      MergedLineStep(lines, updates, key, j, i);
    }
  }

  /** One more request item appends its line when its key is new and non-empty. */
  lemma AppendedStep(updates: seq<(string, string)>, known: map<string, nat>, j: nat)
    requires j < |updates|
    ensures Appended(updates[..j + 1], known)
      == Appended(updates[..j], known)
         + (if updates[j].0 != "" && updates[j].0 !in known then [SettingLine(updates[j].0, updates[j].1)] else [])
  {
    assert updates[..j + 1][..j] == updates[..j];
  }

  /** How one more request item changes the merged line at index `i`. */
  lemma MergedLineStep(lines: seq<string>, updates: seq<(string, string)>, key: string -> Option<string>,
                       j: nat, i: nat)
    requires j < |updates| && i < |lines|
    ensures var (k, v) := updates[j];
      MergedLine(lines, updates[..j + 1], key, i)
      == if k != "" && k in KeyIndex(lines, key) && KeyIndex(lines, key)[k] == i then SettingLine(k, v)
         else MergedLine(lines, updates[..j], key, i)
  {
    var (k, v) := updates[j];
    var m := KeyIndex(lines, key);
    var kl := key(lines[i]);
    if k != "" && k in m && m[k] == i {
      KeyIndexLast(lines, key, k);
      assert kl == Some(k);
      assert Lookup(updates[..j + 1], k) == Some(v) by { LookupStep(updates, j, k); }
    } else if kl.Some? && kl.value != "" && kl.value in m && m[kl.value] == i {
      assert kl.value != k;
      assert Lookup(updates[..j + 1], kl.value) == Lookup(updates[..j], kl.value) by {
        LookupStep(updates, j, kl.value);
      }
    }
  }

  /** Looking a key up in the first `j + 1` items: item `j` if it carries the key,
      otherwise the first `j`. */
  lemma LookupStep(updates: seq<(string, string)>, j: nat, x: string)
    requires j < |updates|
    ensures Lookup(updates[..j + 1], x)
      == if updates[j].0 == x then Some(updates[j].1) else Lookup(updates[..j], x)
  {
    assert updates[..j + 1][..j] == updates[..j];
  }

  /** The merge appends one line per new non-empty key: the file grows by the number of
      distinct keys of the request that are neither empty nor already in the file. */
  lemma {:induction false} AppendedCount(updates: seq<(string, string)>, known: map<string, nat>)
    requires DistinctKeys(updates)
    ensures |Appended(updates, known)| == |NewKeys(updates, known)|
    decreases |updates|
  {
    if updates != [] {
      var n := |updates| - 1;
      assert DistinctKeys(updates[..n]);
      AppendedCount(updates[..n], known);
      NewKeysStep(updates, known);
    }
  }

  /** One more request item adds its key to the new keys when it is new and non-empty;
      with distinct keys it was not among them before. */
  lemma NewKeysStep(updates: seq<(string, string)>, known: map<string, nat>)
    requires DistinctKeys(updates) && updates != []
    ensures var n := |updates| - 1; var k := updates[n].0;
      && k !in NewKeys(updates[..n], known)
      && NewKeys(updates, known) == NewKeys(updates[..n], known) + (if k != "" && k !in known then {k} else {})
  {
    var n := |updates| - 1;
    var init := updates[..n];
    var k := updates[n].0;
    var before := NewKeys(init, known);
    var after := NewKeys(updates, known);
    forall x | x in after ensures x in before || (x == k && k != "" && k !in known) {
      var p :| 0 <= p < |updates| && updates[p].0 != "" && updates[p].0 !in known && x == updates[p].0;
      if p < n {
        assert init[p] == updates[p];
      }
    }
    forall x | x in before ensures x in after && x != k {
      var p :| 0 <= p < |init| && init[p].0 != "" && init[p].0 !in known && x == init[p].0;
      assert init[p] == updates[p];
    }
    if k != "" && k !in known {
      assert k in after;
    }
  }

  /** The request's keys that are neither empty nor in `known`. */
  function NewKeys(updates: seq<(string, string)>, known: map<string, nat>): set<string>
  {
    set p | 0 <= p < |updates| && updates[p].0 != "" && updates[p].0 !in known :: updates[p].0
  }

  /** Every appended line is the setting line of a request item whose key is non-empty
      and not yet in the file. */
  lemma {:induction false} AppendedFrom(updates: seq<(string, string)>, known: map<string, nat>, q: nat)
    requires q < |Appended(updates, known)|
    ensures exists p | 0 <= p < |updates| ::
      && updates[p].0 != "" && updates[p].0 !in known
      && Appended(updates, known)[q] == SettingLine(updates[p].0, updates[p].1)
    decreases |updates|
  {
    var n := |updates| - 1;
    var init := updates[..n];
    if q < |Appended(init, known)| {
      AppendedFrom(init, known, q);
      var p :| 0 <= p < |init| && init[p].0 != "" && init[p].0 !in known
        && Appended(init, known)[q] == SettingLine(init[p].0, init[p].1);
      assert updates[p] == init[p];
    } else {
      assert Appended(updates, known)[q] == SettingLine(updates[n].0, updates[n].1);
    }
  }

  /** A request item with a new non-empty key is among the appended lines. */
  lemma {:induction false} AppendedHas(updates: seq<(string, string)>, known: map<string, nat>, p: nat)
    requires p < |updates| && updates[p].0 != "" && updates[p].0 !in known
    ensures SettingLine(updates[p].0, updates[p].1) in Appended(updates, known)
    decreases |updates|
  {
    var n := |updates| - 1;
    if p < n {
      assert updates[..n][p] == updates[p];
      AppendedHas(updates[..n], known, p);
    }
  }

  /** With distinct keys, the request's value for an item's key is that item's value. */
  lemma {:induction false} LookupDistinct(updates: seq<(string, string)>, p: nat)
    requires DistinctKeys(updates) && p < |updates|
    ensures Lookup(updates, updates[p].0) == Some(updates[p].1)
    decreases |updates|
  {
    var n := |updates| - 1;
    if p < n {
      assert updates[..n][p] == updates[p];
      LookupDistinct(updates[..n], p);
    }
  }

  /** Each old line of the merge is kept, or replaced by the request's setting of its
      key when it is the last line carrying that key. */
  lemma OldLineShape(lines: seq<string>, updates: seq<(string, string)>, key: string -> Option<string>,
                     newLines: seq<string>, i: nat)
    requires MergedFrom(lines, updates, key, newLines) && i < |lines|
    ensures
      || newLines[i] == KeptLine(lines, i)
      || (&& key(lines[i]).Some? && key(lines[i]).value != ""
          && Lookup(updates, key(lines[i]).value).Some?
          && key(lines[i]).value in KeyIndex(lines, key) && KeyIndex(lines, key)[key(lines[i]).value] == i
          && newLines[i] == SettingLine(key(lines[i]).value, Lookup(updates, key(lines[i]).value).value))
  {
    assert newLines[i] == MergedLine(lines, updates, key, i);
  }

  /** Each line after the old ones is the setting of a request item whose key is
      non-empty and carried by no old line. */
  lemma NewLineShape(lines: seq<string>, updates: seq<(string, string)>, key: string -> Option<string>,
                     newLines: seq<string>, i: nat)
    requires MergedFrom(lines, updates, key, newLines) && |lines| <= i < |newLines|
    ensures exists q | 0 <= q < |updates| ::
      && updates[q].0 != "" && updates[q].0 !in KeyIndex(lines, key)
      && newLines[i] == SettingLine(updates[q].0, updates[q].1)
  {
    var known := KeyIndex(lines, key);
    assert newLines[i] == Appended(updates, known)[i - |lines|];
    AppendedFrom(updates, known, i - |lines|);
  }

  /** The merged file holds the request's setting line for item `p`: in place of the
      last line carrying its key, or after the old lines when no line carries it. */
  lemma SettingPosition(lines: seq<string>, updates: seq<(string, string)>, key: string -> Option<string>,
                        newLines: seq<string>, p: nat) returns (at: nat)
    requires DistinctKeys(updates) && MergedFrom(lines, updates, key, newLines)
    requires p < |updates| && updates[p].0 != ""
    ensures at < |newLines| && newLines[at] == SettingLine(updates[p].0, updates[p].1)
    ensures updates[p].0 in KeyIndex(lines, key) ==> at == KeyIndex(lines, key)[updates[p].0]
    ensures updates[p].0 !in KeyIndex(lines, key) ==> at >= |lines|
  {
    var (k, v) := updates[p];
    var known := KeyIndex(lines, key);
    if k in known {
      at := known[k];
      KeyIndexLast(lines, key, k);
      LookupDistinct(updates, p);
      assert newLines[at] == MergedLine(lines, updates, key, at);
    } else {
      AppendedHas(updates, known, p);
      var q :| 0 <= q < |Appended(updates, known)| && Appended(updates, known)[q] == SettingLine(k, v);
      at := |lines| + q;
      assert newLines[at] == Appended(updates, known)[q];
    }
  }

  // ---------------------------------------------------------------------------
  // Reading back what the merge wrote

  /** A key the merge writes so that reading the file back sees exactly it: non-empty,
      without '=' or a line break, not starting a comment and without surrounding
      whitespace. */
  predicate PlainKey(k: string)
  {
    k != "" && '=' !in k && NoBreak(k) && k[0] != '#' && !IsPySpace(k[0]) && !IsPySpace(k[|k| - 1])
  }

  /** A value that reading back keeps whole and does not strip. */
  predicate PlainValue(v: string)
  {
    NoBreak(v) && (v == "" || !IsPySpace(v[|v| - 1]))
  }

  /** A setting line for a key without '=' that starts with a non-space is read back
      under that key, and with its value when neither end of key and value is blank.
      Written to a file on its own, it reads back as one line when neither key nor value
      holds a line break. */
  lemma SettingLineRead(k: string, v: string)
    requires k != "" && '=' !in k && k[0] != '#' && !IsPySpace(k[0])
    ensures ReadLine(SettingLine(k, v)).Pair? && ReadLine(SettingLine(k, v)).key == k
    ensures PlainValue(v) && !IsPySpace(k[|k| - 1]) ==> ReadLine(SettingLine(k, v)) == Pair(k, v)
    ensures NoBreak(k) && NoBreak(v) ==> FileLines(Written([SettingLine(k, v)])) == [SettingLine(k, v)]
  {
    assert NoBreak(k) && NoBreak(v) ==> FileLines(Written([SettingLine(k, v)])) == [SettingLine(k, v)] by {
      if NoBreak(k) && NoBreak(v) {
        SettingShaped(k, v);
        WrittenReadsBack([SettingLine(k, v)]);
      }
    }
    SettingLineKey(k, v);
    if PlainValue(v) && !IsPySpace(k[|k| - 1]) {
      SettingLineValue(k, v);
      var t := Strip(SettingLine(k, v));
      assert SplitSetting(t).1 == v by {
        SplitAfter(t, k, v);
      }
    }
  }

  /** The key part of a setting line, stripped and split at its first '=', is the key. */
  lemma SettingLineKey(k: string, v: string)
    requires k != "" && '=' !in k && k[0] != '#' && !IsPySpace(k[0])
    ensures var t := Strip(SettingLine(k, v)); IsContent(t) && '=' in t && SplitSetting(t).0 == k
  {
    var line := SettingLine(k, v);
    StripKeepsPrefix(line, |k|);
    var t := Strip(line);
    assert t[..|k|] == k && t[|k|] == '=';
    assert t == k + ['='] + t[|k| + 1..];
    FirstSeparator(k, '=', t[|k| + 1..]);
  }

  /** Splitting `k=v` at its first '=' when the key part is `k`: the value part is `v`. */
  lemma SplitAfter(t: string, k: string, v: string)
    requires t == k + "=" + v && '=' in t && SplitSetting(t).0 == k
    ensures SplitSetting(t).1 == v
  {
    var kv := SplitSetting(t);
    assert kv.1 == t[|k| + 1..];
    assert t[|k| + 1..] == v;
  }

  /** A setting line with no blank at either end of key and value strips to `k=v`. */
  lemma SettingLineValue(k: string, v: string)
    requires k != "" && !IsPySpace(k[0]) && !IsPySpace(k[|k| - 1]) && PlainValue(v)
    ensures Strip(SettingLine(k, v)) == k + "=" + v
  {
    var body := k + "=" + v;
    assert body[0] == k[0];
    assert body[|body| - 1] == if v == "" then '=' else v[|v| - 1];
    StripLine(body);
    assert SettingLine(k, v) == body + "\n";
  }

  /** A kept line is read back as the original line was: the newline fix does not change
      what `Strip` sees. */
  lemma KeptRead(lines: seq<string>, i: nat)
    requires i < |lines|
    ensures ReadLine(KeptLine(lines, i)) == ReadLine(lines[i])
  {
    if i == |lines| - 1 && !EndsWith(lines[i], "\n") {
      StripNewline(lines[i]);
    }
  }

  /** The key `update_env` records is stripped and, when not empty, starts neither a
      comment nor with a space. */
  lemma LineKeyStripped(line: string)
    requires LineKey(line).Some? && LineKey(line).value != ""
    ensures var k := LineKey(line).value; k[0] != '#' && !IsPySpace(k[0]) && !IsPySpace(k[|k| - 1])
  {
    var t := Strip(line);
    var kv := SplitSetting(t);
    var k := Strip(kv.0);
    StripKeepsPrefix(t, 0);
    assert t[0] == kv.0[0];
  }

  /** The key `get_env_config` reads from a line, stripped, is the key `update_env`
      records for it. */
  lemma ReadKeyIsLineKey(line: string)
    requires ReadLine(line).Pair?
    ensures LineKey(line) == Some(Strip(ReadLine(line).key))
  {
  }

  /** Every line of the merge of a readable file can be read. */
  lemma MergedLineReadable(lines: seq<string>, updates: seq<(string, string)>, newLines: seq<string>, i: nat)
    requires UpdatedFrom(lines, updates, newLines)
    requires forall q | 0 <= q < |updates| :: PlainKey(updates[q].0)
    requires forall q | 0 <= q < |lines| :: !ReadLine(lines[q]).Unpackable?
    requires i < |newLines|
    ensures !ReadLine(newLines[i]).Unpackable?
  {
    if i < |lines| {
      OldLineShape(lines, updates, LineKey, newLines, i);
      KeptRead(lines, i);
      var key := LineKey(lines[i]);
      if newLines[i] != KeptLine(lines, i) {
        LineKeyStripped(lines[i]);
        SettingLineRead(key.value, Lookup(updates, key.value).value);
      }
    } else {
      NewLineShape(lines, updates, LineKey, newLines, i);
      var q :| 0 <= q < |updates| && updates[q].0 != "" && updates[q].0 !in KeyLines(lines)
        && newLines[i] == SettingLine(updates[q].0, updates[q].1);
      SettingLineRead(updates[q].0, updates[q].1);
    }
  }

  /** After the line carrying item `p`'s setting, no line of the merged file sets the
      same key to another value. */
  lemma LaterSetting(lines: seq<string>, updates: seq<(string, string)>, newLines: seq<string>,
                     p: nat, at: nat, j: nat)
    requires DistinctKeys(updates) && UpdatedFrom(lines, updates, newLines)
    requires forall q | 0 <= q < |updates| :: PlainKey(updates[q].0)
    requires p < |updates| && PlainValue(updates[p].1) && at < j < |newLines|
    requires updates[p].0 in KeyLines(lines) ==> at == KeyLines(lines)[updates[p].0]
    requires updates[p].0 !in KeyLines(lines) ==> at >= |lines|
    requires ReadLine(newLines[j]).Pair? && ReadLine(newLines[j]).key == updates[p].0
    ensures ReadLine(newLines[j]).value == updates[p].1
  {
    var (k, v) := updates[p];
    if j < |lines| {
      OldLineShape(lines, updates, LineKey, newLines, j);
      KeyLinesLast(lines, k);
      if newLines[j] == KeptLine(lines, j) {
        KeptRead(lines, j);
        ReadKeyIsLineKey(lines[j]);
        StripUnchanged(k);
      } else {
        var key := LineKey(lines[j]).value;
        LineKeyStripped(lines[j]);
        SettingLineRead(key, Lookup(updates, key).value);
      }
      assert false;
    } else {
      NewLineShape(lines, updates, LineKey, newLines, j);
      var q :| 0 <= q < |updates| && updates[q].0 != "" && updates[q].0 !in KeyLines(lines)
        && newLines[j] == SettingLine(updates[q].0, updates[q].1);
      SettingLineRead(updates[q].0, updates[q].1);
      assert q == p;
      SettingLineRead(k, v);
    }
  }

  /** Writing the merge of a readable file, when no key or value holds a line break,
      gives a file that reads back as the merged lines and still parses. */
  lemma MergedReadable(text: string, updates: seq<(string, string)>, newLines: seq<string>)
    requires UpdatedFrom(FileLines(text), updates, newLines)
    requires forall q | 0 <= q < |updates| :: PlainKey(updates[q].0) && NoBreak(updates[q].1)
    requires ParseEnv(FileLines(text)).Success?
    ensures FileLines(Written(newLines)) == newLines
    ensures ParseEnv(FileLines(Written(newLines))).Success?
  {
    var lines := FileLines(text);
    FileLinesShaped(text);
    MergedShaped(lines, updates, newLines);
    WrittenReadsBack(newLines);
    ReadEnvFails(lines, ReadLine);
    forall i | 0 <= i < |newLines| ensures !ReadLine(newLines[i]).Unpackable? {
      MergedLineReadable(lines, updates, newLines, i);
    }
    ReadEnvFails(newLines, ReadLine);
  }

  /** Merging settings without line breaks into a readable file, writing it and reading
      it back gives every plain key the value the request set for it. */
  lemma UpdateThenRead(text: string, updates: seq<(string, string)>, newLines: seq<string>, p: nat)
    requires DistinctKeys(updates) && UpdatedFrom(FileLines(text), updates, newLines)
    requires forall q | 0 <= q < |updates| :: PlainKey(updates[q].0) && NoBreak(updates[q].1)
    requires ParseEnv(FileLines(text)).Success?
    requires p < |updates| && PlainValue(updates[p].1)
    ensures var env := ParseEnv(FileLines(Written(newLines)));
      env.Success? && updates[p].0 in env.value && env.value[updates[p].0] == updates[p].1
  {
    MergedReadable(text, updates, newLines);
    var at := LastSetting(FileLines(text), updates, newLines, p);
    ReadEnvLast(newLines, ReadLine, at, updates[p].0, updates[p].1);
  }

  /** No line after item `p`'s own line reads as a different value for its key. */
  lemma NoLaterSetting(lines: seq<string>, updates: seq<(string, string)>, newLines: seq<string>,
                       p: nat, at: nat)
    requires DistinctKeys(updates) && UpdatedFrom(lines, updates, newLines)
    requires forall q | 0 <= q < |updates| :: PlainKey(updates[q].0)
    requires p < |updates| && PlainValue(updates[p].1)
    requires updates[p].0 in KeyLines(lines) ==> at == KeyLines(lines)[updates[p].0]
    requires updates[p].0 !in KeyLines(lines) ==> at >= |lines|
    ensures forall j | at < j < |newLines| && ReadLine(newLines[j]).Pair? && ReadLine(newLines[j]).key == updates[p].0 ::
      ReadLine(newLines[j]).value == updates[p].1
  {
    forall j | at < j < |newLines| && ReadLine(newLines[j]).Pair? && ReadLine(newLines[j]).key == updates[p].0
      ensures ReadLine(newLines[j]).value == updates[p].1
    {
      LaterSetting(lines, updates, newLines, p, at, j);
    }
  }

  /** Item `p`'s own line is its setting line, at its key's old line or after the old
      lines. */
  lemma OwnSetting(lines: seq<string>, updates: seq<(string, string)>, newLines: seq<string>, p: nat)
    returns (at: nat)
    requires DistinctKeys(updates) && UpdatedFrom(lines, updates, newLines)
    requires p < |updates| && updates[p].0 != ""
    ensures at < |newLines| && newLines[at] == SettingLine(updates[p].0, updates[p].1)
    ensures updates[p].0 in KeyLines(lines) ==> at == KeyLines(lines)[updates[p].0]
    ensures updates[p].0 !in KeyLines(lines) ==> at >= |lines|
  {
    assert MergedFrom(lines, updates, LineKey, newLines);
    at := SettingPosition(lines, updates, LineKey, newLines, p);
    assert KeyLines(lines) == KeyIndex(lines, LineKey);
  }

  /** The merged file has a line that reads as item `p`'s setting, and no later line
      reads as a different value for its key. */
  lemma LastSetting(lines: seq<string>, updates: seq<(string, string)>, newLines: seq<string>, p: nat)
    returns (at: nat)
    requires DistinctKeys(updates) && UpdatedFrom(lines, updates, newLines)
    requires forall q | 0 <= q < |updates| :: PlainKey(updates[q].0)
    requires p < |updates| && PlainValue(updates[p].1)
    ensures at < |newLines| && ReadLine(newLines[at]) == Pair(updates[p].0, updates[p].1)
    ensures forall j | at < j < |newLines| && ReadLine(newLines[j]).Pair? && ReadLine(newLines[j]).key == updates[p].0 ::
      ReadLine(newLines[j]).value == updates[p].1
  {
    at := OwnSetting(lines, updates, newLines, p);
    SettingReadAt(newLines, at, updates[p].0, updates[p].1);
    NoLaterSetting(lines, updates, newLines, p, at);
  }

  /** A setting line of a plain key and value, wherever it sits, reads back as its pair. */
  lemma SettingReadAt(newLines: seq<string>, at: nat, k: string, v: string)
    requires at < |newLines| && newLines[at] == SettingLine(k, v)
    requires PlainKey(k) && PlainValue(v)
    ensures ReadLine(newLines[at]) == Pair(k, v)
  {
    SettingLineRead(k, v);
  }

  /** A setting line without line breaks is shaped as a read line and ends the line. */
  lemma SettingShaped(k: string, v: string)
    requires NoBreak(k) && NoBreak(v)
    ensures LineShaped(SettingLine(k, v)) && EndsLine(SettingLine(k, v))
  {
    var line := SettingLine(k, v);
    assert line[..|line| - 1] == k + "=" + v;
  }

  /** After the newline fix, a line of a read file is still shaped as a read line, and
      it ends the line. */
  lemma KeptShaped(lines: seq<string>, i: nat)
    requires ReadShaped(lines) && i < |lines|
    ensures LineShaped(KeptLine(lines, i)) && EndsLine(KeptLine(lines, i))
  {
    var l := lines[i];
    assert EndsWith(l, "\n") <==> l[|l| - 1] == '\n' by {
      assert l[|l| - 1..] == [l[|l| - 1]];
    }
    if i == |lines| - 1 && !EndsWith(l, "\n") {
      var line := l + "\n";
      assert line[..|line| - 1] == l;
      forall j | 0 <= j < |l| ensures !IsBreak(l[j]) {
        if j < |l| - 1 {
          assert l[..|l| - 1][j] == l[j];
        }
      }
    }
  }

  /** A key the request sets belongs to one of its items, with that item's value. */
  lemma {:induction false} LookupFound(updates: seq<(string, string)>, k: string) returns (q: nat)
    requires Lookup(updates, k).Some?
    ensures q < |updates| && updates[q] == (k, Lookup(updates, k).value)
    decreases |updates|
  {
    var n := |updates| - 1;
    if updates[n].0 == k {
      q := n;
    } else {
      q := LookupFound(updates[..n], k);
    }
  }

  /** Merging settings without line breaks into the lines of a read file gives lines
      shaped as read lines, each ending the line. */
  lemma MergedShaped(lines: seq<string>, updates: seq<(string, string)>, newLines: seq<string>)
    requires ReadShaped(lines) && UpdatedFrom(lines, updates, newLines)
    requires forall q | 0 <= q < |updates| :: NoBreak(updates[q].0) && NoBreak(updates[q].1)
    ensures ReadShaped(newLines)
    ensures forall i | 0 <= i < |newLines| :: EndsLine(newLines[i])
  {
    forall i | 0 <= i < |newLines| ensures LineShaped(newLines[i]) && EndsLine(newLines[i]) {
      if i < |lines| {
        OldLineShape(lines, updates, LineKey, newLines, i);
        if newLines[i] == KeptLine(lines, i) {
          KeptShaped(lines, i);
        } else {
          var k := LineKey(lines[i]).value;
          var q := LookupFound(updates, k);
          SettingShaped(k, updates[q].1);
        }
      } else {
        NewLineShape(lines, updates, LineKey, newLines, i);
        var q :| 0 <= q < |updates| && updates[q].0 != "" && updates[q].0 !in KeyIndex(lines, LineKey)
          && newLines[i] == SettingLine(updates[q].0, updates[q].1);
        SettingShaped(updates[q].0, updates[q].1);
      }
    }
  }

  /** A value holding a line break is written as more than one line, so it can set a
      second key: on a file with no lines, setting `k` to `a + "\n" + k2 + "=" + b`
      writes one line that reads back as two settings, `k` to `a` and then `k2` to `b`.
      With `k2 == k`, `k` reads back as `b`. */
  lemma LineBreakInjects(k: string, a: string, k2: string, b: string)
    requires PlainKey(k) && PlainValue(a) && PlainKey(k2) && PlainValue(b)
    ensures var v := a + "\n" + k2 + "=" + b;
      && UpdatedFrom([], [(k, v)], [SettingLine(k, v)])
      && FileLines(Written([SettingLine(k, v)])) == [SettingLine(k, a), SettingLine(k2, b)]
      && ParseEnv(FileLines(Written([SettingLine(k, v)]))) == Success(map[k := a][k2 := b])
  {
    var v := a + "\n" + k2 + "=" + b;
    var updates := [(k, v)];
    assert UpdatedFrom([], updates, [SettingLine(k, v)]) by {
      assert KeyIndex([], LineKey) == map[];
      assert MergedLines([], updates, LineKey) == [];
      assert updates[..0] == [];
    }
    var first, second := SettingLine(k, a), SettingLine(k2, b);
    assert Written([SettingLine(k, v)]) == Written([first, second]) by {
      assert SettingLine(k, v) == first + second;
      assert [first, second][1..] == [second];
      assert Written([second]) == second + Written([]);
      assert Written([SettingLine(k, v)]) == SettingLine(k, v) + Written([]);
    }
    SettingShaped(k, a);
    SettingShaped(k2, b);
    WrittenReadsBack([first, second]);
    SettingLineRead(k, a);
    SettingLineRead(k2, b);
    ReadEnvTwo(first, second, ReadLine);
  }

  /** Two setting lines read as the second one applied after the first. */
  lemma ReadEnvTwo(x: string, y: string, read: string -> EnvLine)
    requires read(x).Pair? && read(y).Pair?
    ensures ReadEnv([x, y], read) == Success(map[read(x).key := read(x).value][read(y).key := read(y).value])
  {
    assert [x][..0] == [];
    assert ReadEnv([x], read) == Success(map[read(x).key := read(x).value]);
    assert [x, y][..1] == [x];
  }

  // ===========================================================================
  // The YAML configuration (update_yaml_provider_field)

  /** A YAML document as `yaml.safe_load` returns it, as a tree: mappings have string
      keys, and any other scalar (a float, a date, a timestamp) is kept as its text with
      its Python truth value. */
  datatype Yaml =
    | YNull
    | YBool(b: bool)
    | YInt(i: int)
    | YStr(s: string)
    | YScalar(text: string, truthy: bool)
    | YList(items: seq<Yaml>)
    | YMap(entries: map<string, Yaml>)

  /** Python truthiness of a loaded document. */
  predicate YTruthy(y: Yaml)
  {
    match y
    case YNull => false
    case YBool(b) => b
    case YInt(i) => i != 0
    case YStr(s) => s != ""
    case YScalar(_, truthy) => truthy
    case YList(items) => items != []
    case YMap(entries) => entries != map[]
  }

  /** The value found by indexing mappings along `path`, if every step finds a mapping
      holding the next key. */
  function Lookup3(doc: Yaml, a: string, b: string, c: string): Option<Yaml>
  {
    if doc.YMap? && a in doc.entries && doc.entries[a].YMap? && b in doc.entries[a].entries
       && doc.entries[a].entries[b].YMap? && c in doc.entries[a].entries[b].entries
    then Some(doc.entries[a].entries[b].entries[c])
    else None
  }

  /** The document `update_yaml_provider_field` can edit: a non-empty mapping whose
      `providers` entry, and that entry's `provider` entry, are mappings when present.
      Any other document makes one of its subscripts raise, which it reports as False. */
  predicate Editable(doc: Yaml, provider: string)
  {
    && doc.YMap? && YTruthy(doc)
    && ("providers" in doc.entries ==>
          && doc.entries["providers"].YMap?
          && (provider in doc.entries["providers"].entries ==> doc.entries["providers"].entries[provider].YMap?))
  }

  /** Python `update_yaml_provider_field` without its file I/O: `loaded` is the parsed
      configuration (`None` when the file is missing or cannot be parsed); on success
      `written` is the document written back. */
  method UpdateYamlProviderField(loaded: Option<Yaml>, provider: string, field: string, value: Yaml)
    returns (ok: bool, written: Yaml)
    ensures ok <==> loaded.Some? && Editable(loaded.value, provider)
    ensures ok ==> Lookup3(written, "providers", provider, field) == Some(value)
    // Every other top-level entry, every other provider and every other field of this
    // provider is kept.
    ensures ok ==> written.YMap? && written.entries.Keys == loaded.value.entries.Keys + {"providers"}
    ensures ok ==> forall k | k in loaded.value.entries && k != "providers" ::
      written.entries[k] == loaded.value.entries[k]
    ensures ok ==> var providers := written.entries["providers"];
      && providers.YMap?
      && (forall name | name in providers.entries && name != provider ::
            "providers" in loaded.value.entries && name in loaded.value.entries["providers"].entries
            && providers.entries[name] == loaded.value.entries["providers"].entries[name])
      && providers.entries.Keys == {provider} +
           (if "providers" in loaded.value.entries then loaded.value.entries["providers"].entries.Keys else {})
    ensures ok ==> var entry := written.entries["providers"].entries[provider];
      && entry.YMap?
      && (forall f | f in entry.entries && f != field ::
            Lookup3(loaded.value, "providers", provider, f) == Some(entry.entries[f]))
      && entry.entries.Keys == {field} +
           (if "providers" in loaded.value.entries && provider in loaded.value.entries["providers"].entries
            then loaded.value.entries["providers"].entries[provider].entries.Keys else {})
  {
    written := YNull;
    if loaded.None? || !YTruthy(loaded.value) {
      return false, written;
    }
    var config := loaded.value;
    if !config.YMap? {
      // Subscripting a list, string or scalar raises TypeError.
      return false, written;
    }
    var top := config.entries;
    if "providers" !in top {
      top := top["providers" := YMap(map[])];
    }
    var providers := top["providers"];
    if !providers.YMap? {
      return false, written;
    }
    var byName := providers.entries;
    if provider !in byName {
      byName := byName[provider := YMap(map[])];
    }
    var entry := byName[provider];
    if !entry.YMap? {
      return false, written;
    }
    var fields := entry.entries[field := value];
    byName := byName[provider := YMap(fields)];
    top := top["providers" := YMap(byName)];
    return true, YMap(top);
  }
}
