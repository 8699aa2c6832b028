/** The application's own desktop entry (src-tauri/src/linux_appimage.rs), following "The
    Exec key" of the Desktop Entry Specification: quoting a path, parsing an Exec line, and
    finding a key in an entry. */
module DesktopEntry {
  import opened Wrappers
  import opened Texts

  const MARKER := "# Managed by AuraCoder AppImage integration"
  const GROUP := "[Desktop Entry]"
  const APP_ID := "com.auracoder.app"
  const APP_NAME := "AuraCoder"
  const TYPE_LINE := "Type=Application"
  const NAME_LINE := "Name=" + APP_NAME

  // ------------------------------------------------------------------- the model

  predicate Quoted(c: char) { c == '"' || c == '\\' || c == '$' || c == '`' }

  function EscapeBody(path: string): string {
    if path == "" then ""
    else if Quoted(path[0]) then ['\\', path[0]] + EscapeBody(path[1..])
    else if path[0] == '%' then "%%" + EscapeBody(path[1..])
    else [path[0]] + EscapeBody(path[1..])
  }

  function EscapeExec(path: string): string { "\"" + EscapeBody(path) + "\"" }

  function EscapeString(value: string): string {
    if value == "" then ""
    else if value[0] == '\\' then "\\\\" + EscapeString(value[1..])
    else if value[0] == '\n' then "\\n" + EscapeString(value[1..])
    else if value[0] == '\r' then "\\r" + EscapeString(value[1..])
    else if value[0] == '\t' then "\\t" + EscapeString(value[1..])
    else [value[0]] + EscapeString(value[1..])
  }

  function BeforeExec(): string {
    MARKER + "\n" + (GROUP + "\n" + (TYPE_LINE + "\n" + (NAME_LINE + "\n")))
  }

  function AfterExec(path: string, version: string): string {
    "TryExec=" + EscapeString(path) + "\nIcon=" + APP_ID + "\nTerminal=false\nCategories=Development;\nStartupNotify=true\nX-AppImage-Version="
    + version + "\nX-AuraCoder-Managed=true\n"
  }

  /** The whole entry written for an AppImage. */
  function Build(path: string, version: string): string {
    BeforeExec() + ("Exec=" + EscapeExec(path) + " %U" + "\n" + AfterExec(path, version))
  }

  /** The end of an Exec command: nothing may be left open, and something must be there. */
  function Finish(command: string, inQuotes: bool): Option<string> {
    if inQuotes || command == "" then None else Some(command)
  }

  /** What is left of an Exec line, read from its start. */
  function Scan(s: string, command: string, inQuotes: bool): Option<string> {
    if s == "" then Finish(command, inQuotes)
    else if s[0] == '"' then Scan(s[1..], command, !inQuotes)
    else if s[0] == '\\' then if |s| < 2 then None else Scan(s[2..], command + [s[1]], inQuotes)
    else if s[0] == '%' then
      if |s| >= 2 && s[1] == '%' then Scan(s[2..], command + "%", inQuotes)
      else if command == "" then None
      else Finish(command, inQuotes)
    else if !inQuotes && IsWhitespace(s[0]) then Finish(command, inQuotes)
    else Scan(s[1..], command + [s[0]], inQuotes)
  }

  function ParseExec(value: string): Option<string> { Scan(TrimStart(value), "", false) }

  /** A line without the carriage return of its ending. */
  function Chomp(line: string): string {
    if line != "" && line[|line| - 1] == '\r' then line[..|line| - 1] else line
  }

  /** What one line means while looking for `prefix`: the value, or whether the reader is
      still inside the wanted group. */
  datatype Seen = Found(value: string) | Inside(inGroup: bool)

  function ReadLine(line: string, prefix: string, inGroup: bool): Seen {
    var t := Trim(line);
    if t == "" || t[0] == '#' then Inside(inGroup)
    else if t[0] == '[' && t[|t| - 1] == ']' then Inside(t == GROUP)
    else if inGroup && prefix <= t then Found(t[|prefix|..])
    else Inside(inGroup)
  }

  function KeyFrom(raw: string, prefix: string, inGroup: bool): Option<string>
    decreases |raw|
  {
    if raw == "" then None
    else
      var k := IndexOf(raw, '\n');
      var seen := ReadLine(if k < |raw| then Chomp(raw[..k]) else raw, prefix, inGroup);
      if seen.Found? then Some(seen.value)
      else if k < |raw| then KeyFrom(raw[k + 1..], prefix, seen.inGroup)
      else None
  }

  function Key(raw: string, key: string): Option<string> { KeyFrom(raw, key + "=", false) }

  /** The command an entry starts. */
  function Command(raw: string): Option<string> {
    var value := Key(raw, "Exec");
    if value.Some? then ParseExec(value.value) else None
  }

  // ----------------------------------------------------- quoting and parsing undo

  lemma {:induction false} ScanReadsBody(path: string, rest: string, command: string)
    ensures Scan(EscapeBody(path) + "\"" + rest, command, true) == Scan("\"" + rest, command + path, true)
  {
    var tail := EscapeBody(path) + "\"" + rest;
    if path == "" {
      assert tail == "\"" + rest && command + path == command;
    } else {
      var c := path[0];
      var after := EscapeBody(path[1..]) + "\"" + rest;
      ScanReadsBody(path[1..], rest, command + [c]);
      assert command + [c] + path[1..] == command + path;
      if Quoted(c) {
        assert tail[0] == '\\' && tail[1] == c && tail[2..] == after;
      } else if c == '%' {
        assert tail[0] == '%' && tail[1] == '%' && tail[2..] == after;
      } else {
        assert tail[0] == c && tail[1..] == after;
      }
    }
  }

  /** Parsing a quoted path followed by the file placeholder gives the path back, for every
      path but the empty one. */
  lemma ExecRoundTrip(path: string)
    ensures ParseExec(EscapeExec(path) + " %U") == if path == "" then None else Some(path)
  {
    var line := EscapeExec(path) + " %U";
    assert line[0] == '"' && line[1..] == EscapeBody(path) + "\"" + " %U";
    assert TrimStart(line) == line;
    ScanReadsBody(path, " %U", "");
    assert "" + path == path;
    var quote := "\"" + " %U";
    assert quote[0] == '"' && quote[1..] == " %U";
  }

  // ------------------------------------------------------------- the whole entry

  lemma NextLine(line: string, rest: string, prefix: string, inGroup: bool)
    requires '\n' !in line
    ensures var seen := ReadLine(Chomp(line), prefix, inGroup);
            KeyFrom(line + "\n" + rest, prefix, inGroup) == if seen.Found? then Some(seen.value) else KeyFrom(rest, prefix, seen.inGroup)
  {
    var raw := line + "\n" + rest;
    IndexAfterHead(line, '\n', rest);
    assert raw == line + ['\n'] + rest;
    assert raw[..|line|] == line && raw[|line| + 1..] == rest;
  }

  lemma PlainLine(line: string)
    requires line != "" && !IsWhitespace(line[0]) && !IsWhitespace(line[|line| - 1])
    ensures Trim(line) == line && Chomp(line) == line
  {
    TrimIsIdle(line);
  }

  lemma MarkerLine(rest: string)
    ensures KeyFrom(MARKER + "\n" + rest, "Exec=", false) == KeyFrom(rest, "Exec=", false)
  {
    PlainLine(MARKER);
    NextLine(MARKER, rest, "Exec=", false);
  }

  lemma GroupLine(rest: string)
    ensures KeyFrom(GROUP + "\n" + rest, "Exec=", false) == KeyFrom(rest, "Exec=", true)
  {
    PlainLine(GROUP);
    NextLine(GROUP, rest, "Exec=", false);
  }

  lemma OtherKeyLine(line: string, rest: string)
    requires line != "" && '\n' !in line && !IsWhitespace(line[0]) && !IsWhitespace(line[|line| - 1])
    requires line[0] != 'E' && line[0] != '#' && line[0] != '['
    ensures KeyFrom(line + "\n" + rest, "Exec=", true) == KeyFrom(rest, "Exec=", true)
  {
    PlainLine(line);
    NextLine(line, rest, "Exec=", true);
  }

  lemma TypeLine(rest: string)
    ensures KeyFrom(TYPE_LINE + "\n" + rest, "Exec=", true) == KeyFrom(rest, "Exec=", true)
  {
    OtherKeyLine(TYPE_LINE, rest);
  }

  lemma NameLine(rest: string)
    ensures KeyFrom(NAME_LINE + "\n" + rest, "Exec=", true) == KeyFrom(rest, "Exec=", true)
  {
    OtherKeyLine(NAME_LINE, rest);
  }

  lemma LinesBeforeExec(rest: string)
    ensures BeforeExec() + rest == MARKER + "\n" + (GROUP + "\n" + (TYPE_LINE + "\n" + (NAME_LINE + "\n" + rest)))
  {
    var a, b, c, d := MARKER + "\n", GROUP + "\n", TYPE_LINE + "\n", NAME_LINE + "\n";
    assert BeforeExec() == a + (b + (c + d));
    assert a + (b + (c + d)) + rest == a + (b + (c + (d + rest)));
  }

  /** The lines before Exec lead to it, inside the group. */
  lemma ReachesExec(rest: string)
    ensures KeyFrom(BeforeExec() + rest, "Exec=", false) == KeyFrom(rest, "Exec=", true)
  {
    LinesBeforeExec(rest);
    var r3 := NAME_LINE + "\n" + rest;
    var r2 := TYPE_LINE + "\n" + r3;
    MarkerLine(GROUP + "\n" + r2);
    GroupLine(r2);
    TypeLine(r3);
    NameLine(rest);
  }

  lemma {:induction false} BodyHasBreakIff(path: string)
    ensures '\n' in EscapeBody(path) <==> '\n' in path
  {
    if path != "" {
      BodyHasBreakIff(path[1..]);
      assert path == [path[0]] + path[1..];
    }
  }

  lemma ExecLineRead(value: string)
    requires value != "" && value[|value| - 1] == 'U'
    ensures ReadLine(Chomp("Exec=" + value), "Exec=", true) == Found(value)
  {
    var line := "Exec=" + value;
    assert line[0] == 'E' && line[|line| - 1] == 'U';
    PlainLine(line);
    assert line[..5] == "Exec=" && line[5..] == value;
  }

  lemma ExecLineFound(path: string, rest: string)
    requires '\n' !in path
    ensures KeyFrom("Exec=" + EscapeExec(path) + " %U" + "\n" + rest, "Exec=", true) == Some(EscapeExec(path) + " %U")
  {
    BodyHasBreakIff(path);
    var value := EscapeExec(path) + " %U";
    assert "Exec=" + EscapeExec(path) + " %U" == "Exec=" + value;
    ExecLineRead(value);
    NextLine("Exec=" + value, rest, "Exec=", true);
  }

  /** An opened quote is never closed by a beginning of quoted text. */
  lemma {:induction false} CutBodyNeverParses(path: string, x: string, command: string)
    requires x <= EscapeBody(path)
    ensures Scan(x, command, true) == None
  {
    if x != "" {
      var c := path[0];
      var width := if Quoted(c) || c == '%' then 2 else 1;
      assert EscapeBody(path)[width..] == EscapeBody(path[1..]);
      assert x[0] == EscapeBody(path)[0];
      if |x| >= width {
        assert x[width..] <= EscapeBody(path[1..]);
        if width == 2 { assert x[1] == EscapeBody(path)[1]; }
        CutBodyNeverParses(path[1..], x[width..], command + [c]);
      }
    }
  }

  lemma TrimKeepsStart(line: string, start: string)
    requires start != "" && start <= line && !IsWhitespace(start[0]) && !IsWhitespace(start[|start| - 1])
    ensures start <= Trim(line) <= line
  {
    assert line[0] == start[0];
    TrimEndKeepsStart(line, start);
  }

  lemma {:induction false} TrimEndKeepsStart(line: string, start: string)
    requires start != "" && start <= line && !IsWhitespace(start[|start| - 1])
    ensures start <= TrimEnd(line)
  {
    if IsWhitespace(line[|line| - 1]) {
      assert line[|start| - 1] == start[|start| - 1];
      TrimEndKeepsStart(line[..|line| - 1], start);
    }
  }

  /** The text up to the first line break, and the rest. */
  lemma SplitAtBreak(s: string) returns (head: string, tail: string)
    requires '\n' in s
    ensures s == head + "\n" + tail && '\n' !in head
  {
    if s[0] == '\n' {
      head, tail := "", s[1..];
    } else {
      head, tail := SplitAtBreak(s[1..]);
      head := [s[0]] + head;
    }
  }

  /** What is found on an Exec line cut inside its quotes does not parse. */
  lemma CutLineNeverParses(path: string, head: string)
    requires head <= EscapeBody(path)
    ensures var seen := ReadLine(Chomp("Exec=\"" + head), "Exec=", true); seen.Found? && ParseExec(seen.value) == None
  {
    var start := "Exec=\"";
    var line := start + head;
    assert start <= Chomp(line) <= line;
    TrimKeepsStart(Chomp(line), start);
    var t := Trim(Chomp(line));
    assert t[0] == start[0] && t[5] == start[5] && t[..5] == start[..5] == "Exec=";
    var value := t[5..];
    assert value[1..] == t[6..] <= line[6..] == head;
    CutBodyNeverParses(path, value[1..], "");
    assert TrimStart(value) == value;
  }

  /** A path with a line break leaves an Exec line that does not parse. */
  lemma BrokenLineNeverParses(path: string, rest: string)
    requires '\n' in path
    ensures var value := KeyFrom("Exec=" + EscapeExec(path) + " %U" + "\n" + rest, "Exec=", true);
            value.Some? && ParseExec(value.value) == None
  {
    BodyHasBreakIff(path);
    var head, tail := SplitAtBreak(EscapeBody(path));
    var line := "Exec=\"" + head;
    var after := tail + "\"" + " %U" + "\n" + rest;
    assert "Exec=" + EscapeExec(path) + " %U" + "\n" + rest == line + "\n" + after;
    NextLine(line, after, "Exec=", true);
    CutLineNeverParses(path, head);
  }

  /** Writing the entry and reading its command back gives the path exactly if the path is
      not empty and has no line break; otherwise nothing is found. */
  lemma EntryRoundTrip(path: string, version: string)
    ensures Command(Build(path, version)) == if path == "" || '\n' in path then None else Some(path)
  {
    var rest := AfterExec(path, version);
    var exec := "Exec=" + EscapeExec(path) + " %U" + "\n" + rest;
    ReachesExec(exec);
    assert "Exec" + "=" == "Exec=";
    if '\n' in path {
      BrokenLineNeverParses(path, rest);
    } else {
      ExecLineFound(path, rest);
      ExecRoundTrip(path);
    }
  }

  // ------------------------------------------------------------------ as it runs

  lemma {:induction false} EscapeAppends(path: string, c: char)
    ensures EscapeBody(path + [c]) == EscapeBody(path) + EscapeBody([c])
  {
    assert EscapeBody([]) == "";
    if path != "" {
      EscapeAppends(path[1..], c);
      assert (path + [c])[0] == path[0] && (path + [c])[1..] == path[1..] + [c];
    } else {
      assert path + [c] == [c];
    }
  }

  method EscapeExecArgument(path: string) returns (escaped: string)
    ensures escaped == EscapeExec(path)
  {
    escaped := "\"";
    for i := 0 to |path|
      invariant escaped == "\"" + EscapeBody(path[..i])
    {
      var c := path[i];
      EscapeAppends(path[..i], c);
      assert path[..i + 1] == path[..i] + [c];
      assert [c][1..] == "" && EscapeBody("") == "";
      if Quoted(c) {
        escaped := escaped + ['\\'] + [c];
      } else if c == '%' {
        escaped := escaped + "%%";
      } else {
        escaped := escaped + [c];
      }
    }
    assert path[..|path|] == path;
    escaped := escaped + "\"";
  }

  method ParseExecCommand(value: string) returns (result: Option<string>)
    ensures result == ParseExec(value)
  {
    var i := 0;
    while i < |value| && IsWhitespace(value[i])
      invariant 0 <= i <= |value| && TrimStart(value) == TrimStart(value[i..])
    {
      assert value[i..][1..] == value[i + 1..];
      i := i + 1;
    }
    assert TrimStart(value) == value[i..];
    var command, inQuotes := "", false;
    while i < |value|
      invariant 0 <= i <= |value| && ParseExec(value) == Scan(value[i..], command, inQuotes)
    {
      ghost var s := value[i..];
      var c := value[i];
      i := i + 1;
      assert s[1..] == value[i..];
      if c == '"' {
        inQuotes := !inQuotes;
      } else if c == '\\' {
        if i == |value| {
          return None;
        }
        command := command + [value[i]];
        i := i + 1;
        assert s[2..] == value[i..];
      } else if c == '%' {
        if i < |value| && value[i] == '%' {
          i := i + 1;
          command := command + "%";
          assert s[2..] == value[i..];
        } else if command == "" {
          return None;
        } else {
          return Finish(command, inQuotes);
        }
      } else if !inQuotes && IsWhitespace(c) {
        return Finish(command, inQuotes);
      } else {
        command := command + [c];
      }
    }
    result := if inQuotes || command == "" then None else Some(command);
  }

  /** One turn of the loop over lines. */
  method TakeLine(line: string, prefix: string, inGroup: bool) returns (seen: Seen)
    ensures seen == ReadLine(line, prefix, inGroup)
  {
    var t := Trim(line);
    if t == "" || t[0] == '#' {
      return Inside(inGroup);
    }
    if t[0] == '[' && t[|t| - 1] == ']' {
      return Inside(t == GROUP);
    }
    if inGroup {
      if prefix <= t {
        return Found(t[|prefix|..]);
      }
    }
    seen := Inside(inGroup);
  }

  method FindKey(raw: string, key: string) returns (value: Option<string>)
    ensures value == Key(raw, key)
  {
    var inGroup, rest := false, raw;
    var prefix := key + "=";
    while rest != ""
      invariant Key(raw, key) == KeyFrom(rest, prefix, inGroup)
      decreases |rest|
    {
      var k := IndexOf(rest, '\n');
      var seen := TakeLine(if k < |rest| then Chomp(rest[..k]) else rest, prefix, inGroup);
      if seen.Found? {
        return Some(seen.value);
      }
      inGroup := seen.inGroup;
      rest := if k < |rest| then rest[k + 1..] else "";
    }
    value := None;
  }

  // ---------------------------------------------------------------- string values

  /** The escapes of string values, read back ("Possible value types", Desktop Entry
      Specification). */
  function UnescapeString(s: string): string {
    if |s| < 2 then s
    else if s[0] != '\\' then [s[0]] + UnescapeString(s[1..])
    else
      var c := if s[1] == 'n' then '\n' else if s[1] == 'r' then '\r' else if s[1] == 't' then '\t' else s[1];
      [c] + UnescapeString(s[2..])
  }

  /** A value written into the entry stays on its line, and reads back as what it was. */
  lemma {:induction false} StringRoundTrip(value: string)
    ensures UnescapeString(EscapeString(value)) == value
    ensures forall c <- EscapeString(value) :: c != '\n' && c != '\r' && c != '\t'
  {
    if value != "" {
      var tail := EscapeString(value[1..]);
      StringRoundTrip(value[1..]);
      var c := value[0];
      var head := EscapeString(value)[..|EscapeString(value)| - |tail|];
      assert EscapeString(value) == head + tail;
      if c == '\\' || c == '\n' || c == '\r' || c == '\t' {
        assert |head| == 2 && EscapeString(value)[2..] == tail;
      } else {
        assert head == [c] && EscapeString(value)[1..] == tail;
      }
      assert value == [c] + value[1..];
    }
  }
}
