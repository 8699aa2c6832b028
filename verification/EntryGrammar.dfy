/** What the two readers of desktop entries accept, told by the form of the text: the command
    of an Exec line, piece by piece, and the line a key is found on. */
module EntryGrammar {
  import opened Wrappers
  import opened Texts
  import opened DesktopEntry

  // ------------------------------------------------------------------ the Exec line

  datatype Piece = Plain(c: char) | Escaped(c: char) | Percent | Quote

  function TextOf(p: Piece): string {
    match p case Plain(c) => [c] case Escaped(c) => ['\\', c] case Percent => "%%" case Quote => "\""
  }

  function ValueOf(p: Piece): string {
    match p case Plain(c) => [c] case Escaped(c) => [c] case Percent => "%" case Quote => ""
  }

  function Written(ps: seq<Piece>): string { if ps == [] then "" else TextOf(ps[0]) + Written(ps[1..]) }

  function Meaning(ps: seq<Piece>): string { if ps == [] then "" else ValueOf(ps[0]) + Meaning(ps[1..]) }

  /** Whether a quote is open after these pieces. */
  predicate Open(ps: seq<Piece>, quoted: bool) {
    if ps == [] then quoted else Open(ps[1..], quoted != ps[0].Quote?)
  }

  /** Plain characters have no meaning of their own; blanks are plain inside quotes only. */
  predicate Proper(ps: seq<Piece>, quoted: bool) {
    ps == [] ||
    ((ps[0].Plain? ==> ps[0].c != '"' && ps[0].c != '\\' && ps[0].c != '%' && (quoted || !IsWhitespace(ps[0].c)))
     && Proper(ps[1..], quoted != ps[0].Quote?))
  }

  /** Here the command ends: at the end of the line, at a blank outside quotes, at a field
      code, or at a backslash with nothing after it. */
  predicate EndsCommand(rest: string, quoted: bool) {
    || rest == "" || rest == "\\"
    || (!quoted && IsWhitespace(rest[0]))
    || (rest[0] == '%' && (|rest| == 1 || rest[1] != '%'))
  }

  lemma ScanReadsOne(p: Piece, after: string, command: string, quoted: bool)
    requires Proper([p], quoted)
    ensures Scan(TextOf(p) + after, command, quoted) == Scan(after, command + ValueOf(p), quoted != p.Quote?)
  {
    var s := TextOf(p) + after;
    assert s[|TextOf(p)|..] == after && s[..|TextOf(p)|] == TextOf(p);
    assert s[0] == TextOf(p)[0] && (|TextOf(p)| == 2 ==> s[1] == TextOf(p)[1]);
    assert command + "" == command;
  }

  lemma {:induction false} ScanReads(ps: seq<Piece>, rest: string, command: string, quoted: bool)
    requires Proper(ps, quoted)
    ensures Scan(Written(ps) + rest, command, quoted) == Scan(rest, command + Meaning(ps), Open(ps, quoted))
  {
    if ps == [] {
      assert Written(ps) + rest == rest && command + Meaning(ps) == command;
    } else {
      var after := Written(ps[1..]) + rest;
      assert Written(ps) + rest == TextOf(ps[0]) + after;
      ScanReadsOne(ps[0], after, command, quoted);
      ScanReads(ps[1..], rest, command + ValueOf(ps[0]), quoted != ps[0].Quote?);
      assert command + ValueOf(ps[0]) + Meaning(ps[1..]) == command + Meaning(ps);
    }
  }

  lemma {:induction false} BlanksAreSkipped(lead: string, text: string)
    requires Blank(lead) && (text == "" || !IsWhitespace(text[0]))
    ensures TrimStart(lead + text) == text
  {
    if lead == "" {
      assert lead + text == text;
    } else {
      assert (lead + text)[0] == lead[0] && (lead + text)[1..] == lead[1..] + text;
      assert lead[0] in lead && Blank(lead[1..]);
      BlanksAreSkipped(lead[1..], text);
    }
  }

  /** What an Exec line of this form means, and when it means nothing. */
  lemma ExecLineMeans(lead: string, ps: seq<Piece>, rest: string)
    requires Blank(lead) && Proper(ps, false) && EndsCommand(rest, Open(ps, false))
    requires var text := Written(ps) + rest; text == "" || !IsWhitespace(text[0])
    ensures ParseExec(lead + Written(ps) + rest) ==
              if rest == "\\" || Open(ps, false) || Meaning(ps) == "" then None else Some(Meaning(ps))
  {
    assert lead + Written(ps) + rest == lead + (Written(ps) + rest);
    BlanksAreSkipped(lead, Written(ps) + rest);
    ScanReads(ps, rest, "", false);
    assert "" + Meaning(ps) == Meaning(ps);
  }

  lemma {:induction false} PiecesOf(s: string, quoted: bool) returns (ps: seq<Piece>, rest: string)
    ensures s == Written(ps) + rest && Proper(ps, quoted) && EndsCommand(rest, Open(ps, quoted))
  {
    if EndsCommand(s, quoted) {
      ps, rest := [], s;
    } else {
      var p := if s[0] == '"' then Quote else if s[0] == '\\' then Escaped(s[1]) else if s[0] == '%' then Percent else Plain(s[0]);
      var width := if p.Escaped? || p.Percent? then 2 else 1;
      ps, rest := PiecesOf(s[width..], quoted != p.Quote?);
      ps := [p] + ps;
      assert ps[1..] == ps[1..] && s == s[..width] + s[width..];
    }
  }

  /** Every line is of this form. */
  lemma EveryLineHasForm(value: string) returns (lead: string, ps: seq<Piece>, rest: string)
    ensures value == lead + Written(ps) + rest
    ensures Blank(lead) && Proper(ps, false) && EndsCommand(rest, Open(ps, false))
    ensures var text := Written(ps) + rest; text == "" || !IsWhitespace(text[0])
  {
    lead := TrimStartSplits(value);
    ps, rest := PiecesOf(TrimStart(value), false);
    assert lead + Written(ps) + rest == lead + (Written(ps) + rest);
  }

  predicate Ordinary(s: string) {
    forall c <- s :: c != '"' && c != '\\' && c != '%' && !IsWhitespace(c)
  }

  lemma {:induction false} OrdinaryPieces(s: string) returns (ps: seq<Piece>)
    requires Ordinary(s)
    ensures Proper(ps, false) && !Open(ps, false) && Written(ps) == s && Meaning(ps) == s
  {
    if s == "" {
      ps := [];
    } else {
      assert s[0] in s && Ordinary(s[1..]);
      var tail := OrdinaryPieces(s[1..]);
      ps := [Plain(s[0])] + tail;
      assert ps[1..] == tail;
    }
  }

  lemma OrdinaryThen(command: string, rest: string)
    requires command != "" && Ordinary(command) && EndsCommand(rest, false)
    ensures ParseExec(command + rest) == if rest == "\\" then None else Some(command)
  {
    var ps := OrdinaryPieces(command);
    assert command[0] in command;
    assert "" + Written(ps) + rest == command + rest;
    ExecLineMeans("", ps, rest);
  }

  /** An ordinary command parses to itself, alone, before blanks and arguments, and before a
      field code; after an unclosed quote or before a lone backslash nothing parses. */
  lemma OrdinaryCommandParses(command: string, blank: char, code: char, tail: string)
    requires command != "" && Ordinary(command) && IsWhitespace(blank) && code != '%'
    ensures ParseExec(command) == Some(command)
    ensures ParseExec(command + ([blank] + tail)) == Some(command)
    ensures ParseExec(command + (['%', code] + tail)) == Some(command)
    ensures ParseExec(command + "\\") == None && ParseExec("\"" + command) == None
  {
    assert command + "" == command;
    OrdinaryThen(command, "");
    OrdinaryThen(command, [blank] + tail);
    OrdinaryThen(command, ['%', code] + tail);
    OrdinaryThen(command, "\\");
    UnclosedQuoteParsesToNothing(command);
  }

  lemma UnclosedQuoteParsesToNothing(command: string)
    requires Ordinary(command)
    ensures ParseExec("\"" + command) == None
  {
    var inside := OrdinaryQuoted(command);
    var all := [Quote] + inside;
    assert all[1..] == inside;
    assert "" + Written(all) + "" == "\"" + command;
    ExecLineMeans("", all, "");
  }

  lemma {:induction false} OrdinaryQuoted(s: string) returns (ps: seq<Piece>)
    requires Ordinary(s)
    ensures Proper(ps, true) && Open(ps, true) && Written(ps) == s
  {
    if s == "" {
      ps := [];
    } else {
      assert s[0] in s && Ordinary(s[1..]);
      var tail := OrdinaryQuoted(s[1..]);
      ps := [Plain(s[0])] + tail;
      assert ps[1..] == tail;
    }
  }

  // ------------------------------------------------------------------------ keys

  /** The lines of an entry, without their endings. */
  function Lines(raw: string): seq<string>
    decreases |raw|
  {
    if raw == "" then []
    else
      var k := IndexOf(raw, '\n');
      if k < |raw| then [Chomp(raw[..k])] + Lines(raw[k + 1..]) else [raw]
  }

  predicate Header(line: string) {
    var t := Trim(line);
    t != "" && t[0] == '[' && t[|t| - 1] == ']'
  }

  /** The line belongs to the entry's own group: the last header before it is that of the
      group; `start` says whether the text begins inside it. */
  predicate InGroup(lines: seq<string>, i: nat, start: bool)
    requires i <= |lines|
  {
    || (start && forall j | 0 <= j < i :: !Header(lines[j]))
    || exists h | 0 <= h < i :: Trim(lines[h]) == "[Desktop Entry]" && forall j | h < j < i :: !Header(lines[j])
  }

  predicate Assigns(line: string, prefix: string) {
    var t := Trim(line);
    t != "" && t[0] != '#' && !Header(line) && prefix <= t
  }

  predicate GivesKey(lines: seq<string>, i: nat, prefix: string, start: bool)
    requires i < |lines|
  {
    InGroup(lines, i, start) && Assigns(lines[i], prefix)
  }

  /** Whether the text after a line is inside the group. */
  predicate StartAfter(line: string, start: bool) {
    if Header(line) then Trim(line) == "[Desktop Entry]" else start
  }

  lemma InGroupMovesOn(lines: seq<string>, i: nat, start: bool)
    requires i < |lines| && InGroup(lines, i + 1, start)
    ensures InGroup(lines[1..], i, StartAfter(lines[0], start))
  {
    var tail := lines[1..];
    assert forall j | 0 <= j < i :: tail[j] == lines[j + 1];
    if !(start && forall j | 0 <= j < i + 1 :: !Header(lines[j])) {
      var h :| 0 <= h < i + 1 && Trim(lines[h]) == "[Desktop Entry]" && forall j | h < j < i + 1 :: !Header(lines[j]);
      if h > 0 { assert Trim(tail[h - 1]) == "[Desktop Entry]" && forall j | h - 1 < j < i :: !Header(tail[j]); }
    }
  }

  lemma InGroupComesFrom(lines: seq<string>, i: nat, start: bool)
    requires i < |lines| && InGroup(lines[1..], i, StartAfter(lines[0], start))
    ensures InGroup(lines, i + 1, start)
  {
    var tail := lines[1..];
    assert forall j | 0 < j < i + 1 :: lines[j] == tail[j - 1];
    if StartAfter(lines[0], start) && forall j | 0 <= j < i :: !Header(tail[j]) {
      if Header(lines[0]) { assert Trim(lines[0]) == "[Desktop Entry]"; }
    } else {
      var h :| 0 <= h < i && Trim(tail[h]) == "[Desktop Entry]" && forall j | h < j < i :: !Header(tail[j]);
      assert Trim(lines[h + 1]) == "[Desktop Entry]" && forall j | h + 1 < j < i + 1 :: !Header(lines[j]);
    }
  }

  lemma InGroupShifts(lines: seq<string>, i: nat, start: bool)
    requires i < |lines|
    ensures InGroup(lines, i + 1, start) <==> InGroup(lines[1..], i, StartAfter(lines[0], start))
  {
    if InGroup(lines, i + 1, start) { InGroupMovesOn(lines, i, start); }
    if InGroup(lines[1..], i, StartAfter(lines[0], start)) { InGroupComesFrom(lines, i, start); }
  }

  lemma ReadLineMeans(line: string, prefix: string, start: bool)
    ensures ReadLine(line, prefix, start) ==
              if start && Assigns(line, prefix) then Found(Trim(line)[|prefix|..]) else Inside(StartAfter(line, start))
  {
  }

  /** The value found is that of the first line that gives the key. */
  ghost predicate FirstGiven(lines: seq<string>, prefix: string, start: bool, value: Option<string>) {
    if value.None? then forall i | 0 <= i < |lines| :: !GivesKey(lines, i, prefix, start)
    else exists i | 0 <= i < |lines| ::
           GivesKey(lines, i, prefix, start) && value.value == Trim(lines[i])[|prefix|..]
           && forall j | 0 <= j < i :: !GivesKey(lines, j, prefix, start)
  }

  lemma GivenLater(lines: seq<string>, prefix: string, start: bool, value: Option<string>)
    requires lines != [] && !(start && Assigns(lines[0], prefix))
    requires FirstGiven(lines[1..], prefix, StartAfter(lines[0], start), value)
    ensures FirstGiven(lines, prefix, start, value)
  {
    var tail, start' := lines[1..], StartAfter(lines[0], start);
    assert !GivesKey(lines, 0, prefix, start);
    forall i | 0 <= i < |tail| ensures GivesKey(lines, i + 1, prefix, start) <==> GivesKey(tail, i, prefix, start') {
      InGroupShifts(lines, i, start);
    }
    if value.Some? {
      var i :| 0 <= i < |tail| && GivesKey(tail, i, prefix, start') && value.value == Trim(tail[i])[|prefix|..]
               && forall j | 0 <= j < i :: !GivesKey(tail, j, prefix, start');
      assert GivesKey(lines, i + 1, prefix, start) && value.value == Trim(lines[i + 1])[|prefix|..];
      forall j | 0 <= j < i + 1 ensures !GivesKey(lines, j, prefix, start) {
        if j > 0 { assert !GivesKey(tail, j - 1, prefix, start'); }
      }
    } else {
      forall i | 0 <= i < |lines| ensures !GivesKey(lines, i, prefix, start) {
        if i > 0 { assert !GivesKey(tail, i - 1, prefix, start'); }
      }
    }
  }

  lemma GivenFirst(lines: seq<string>, prefix: string, start: bool)
    requires lines != [] && start && Assigns(lines[0], prefix)
    ensures FirstGiven(lines, prefix, start, Some(Trim(lines[0])[|prefix|..]))
  {
    assert GivesKey(lines, 0, prefix, start);
  }

  lemma {:induction false} KeyFromIsFirst(raw: string, prefix: string, start: bool)
    ensures FirstGiven(Lines(raw), prefix, start, KeyFrom(raw, prefix, start))
    decreases |raw|
  {
    if raw != "" {
      var k := IndexOf(raw, '\n');
      var lines := Lines(raw);
      ReadLineMeans(lines[0], prefix, start);
      if start && Assigns(lines[0], prefix) {
        GivenFirst(lines, prefix, start);
      } else {
        var rest := if k < |raw| then raw[k + 1..] else "";
        assert lines[1..] == Lines(rest);
        KeyFromIsFirst(rest, prefix, StartAfter(lines[0], start));
        GivenLater(lines, prefix, start, KeyFrom(rest, prefix, StartAfter(lines[0], start)));
      }
    }
  }

  /** A key is found on the first line in the group that sets it, and nowhere else: not in
      comments, headers or other groups. */
  lemma KeyIsFirstInGroup(raw: string, key: string)
    ensures FirstGiven(Lines(raw), key + "=", false, Key(raw, key))
  {
    KeyFromIsFirst(raw, key + "=", false);
  }
}
