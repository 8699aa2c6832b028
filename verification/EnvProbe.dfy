/** Reading the environment a login shell reports (src-tauri/src/runtime_env.rs): whatever
    the shell prints first, a marker, and then `env -0`. */
module EnvProbe {
  import opened Bytes
  import opened Texts

  const MARKER_TEXT := "__PANES_LOGIN_ENV_START__"
  const NUL: Byte := 0
  const EQUALS: Byte := 61

  function Marker(): (m: seq<Byte>)
    ensures |m| == |MARKER_TEXT| && NUL !in m
  {
    var m := Ascii(MARKER_TEXT);
    assert forall i | 0 <= i < |m| :: m[i] as int == MARKER_TEXT[i] as int && MARKER_TEXT[i] as int != 0;
    m
  }

  predicate EndsWith(s: seq<Byte>, end: seq<Byte>) { |end| <= |s| && s[|s| - |end|..] == end }

  datatype Reading = Reading(afterMarker: bool, env: map<seq<Byte>, seq<Byte>>)

  /** One NUL-terminated piece of the output. */
  function TakePiece(r: Reading, piece: seq<Byte>): Reading {
    if !r.afterMarker then r.(afterMarker := EndsWith(piece, Marker()))
    else
      var k := IndexOf(piece, EQUALS);
      if k >= |piece| || k == 0 then r else r.(env := r.env[piece[..k] := piece[k + 1..]])
  }

  function ReadFrom(s: seq<Byte>, r: Reading): Reading
    decreases |s|
  {
    var k := IndexOf(s, NUL);
    if k < |s| then ReadFrom(s[k + 1..], TakePiece(r, s[..k])) else TakePiece(r, s)
  }

  function Parse(stdout: seq<Byte>): map<seq<Byte>, seq<Byte>> { ReadFrom(stdout, Reading(false, map[])).env }

  method ParseOutput(stdout: seq<Byte>) returns (env: map<seq<Byte>, seq<Byte>>)
    ensures env == Parse(stdout)
  {
    env := map[];
    var afterMarker := false;
    var rest, more := stdout, true;
    while more
      invariant Parse(stdout) == if more then ReadFrom(rest, Reading(afterMarker, env)).env else env
      decreases more, |rest|
    {
      var k := IndexOf(rest, NUL);
      more := k < |rest|;
      var entry := if more then rest[..k] else rest;
      rest := if more then rest[k + 1..] else [];
      if !afterMarker {
        afterMarker := EndsWith(entry, Marker());
        continue;
      }
      var separator := IndexOf(entry, EQUALS);
      if separator < |entry| && separator != 0 {
        env := env[entry[..separator] := entry[separator + 1..]];
      }
    }
  }

  // ----------------------------------------------------------- what the shell prints

  type Entry = (seq<Byte>, seq<Byte>)

  /** A variable `env -0` can print: its name is not empty and holds neither '=' nor NUL. */
  predicate Proper(e: Entry) { e.0 != [] && EQUALS !in e.0 && NUL !in e.0 && NUL !in e.1 }

  function Render(entries: seq<Entry>): seq<Byte> {
    if entries == [] then [] else entries[0].0 + [EQUALS] + entries[0].1 + [NUL] + Render(entries[1..])
  }

  function Update(env: map<seq<Byte>, seq<Byte>>, entries: seq<Entry>): map<seq<Byte>, seq<Byte>>
    decreases |entries|
  {
    if entries == [] then env else Update(env[entries[0].0 := entries[0].1], entries[1..])
  }

  /** The last of several entries with one name wins. */
  lemma {:induction false} UpdateTakesTheLast(env: map<seq<Byte>, seq<Byte>>, entries: seq<Entry>, i: nat)
    requires i < |entries| && forall j | i < j < |entries| :: entries[j].0 != entries[i].0
    ensures entries[i].0 in Update(env, entries) && Update(env, entries)[entries[i].0] == entries[i].1
    decreases |entries|
  {
    var next := env[entries[0].0 := entries[0].1];
    if i == 0 {
      UpdateKeepsOthers(next, entries[1..], entries[0].0);
    } else {
      UpdateTakesTheLast(next, entries[1..], i - 1);
    }
  }

  lemma {:induction false} UpdateKeepsOthers(env: map<seq<Byte>, seq<Byte>>, entries: seq<Entry>, name: seq<Byte>)
    requires forall j | 0 <= j < |entries| :: entries[j].0 != name
    ensures name in Update(env, entries) <==> name in env
    ensures name in env ==> Update(env, entries)[name] == env[name]
    decreases |entries|
  {
    if entries != [] {
      UpdateKeepsOthers(env[entries[0].0 := entries[0].1], entries[1..], name);
    }
  }

  /** Nothing printed before the real marker looks like it: no NUL follows the marker's bytes. */
  ghost predicate Quiet(noise: seq<Byte>) {
    forall j | 0 <= j < |noise| && noise[j] == NUL :: !EndsWith(noise[..j], Marker())
  }

  // ------------------------------------------------------------------ correctness

  lemma NoSuchByte(s: seq<Byte>, b: Byte)
    requires b !in s
    ensures IndexOf(s, b) == |s|
  {
    if s != [] {
      assert forall x <- s[1..] :: x in s;
      NoSuchByte(s[1..], b);
    }
  }

  lemma NextPiece(piece: seq<Byte>, rest: seq<Byte>, r: Reading)
    requires NUL !in piece
    ensures ReadFrom(piece + [NUL] + rest, r) == ReadFrom(rest, TakePiece(r, piece))
  {
    var s := piece + [NUL] + rest;
    IndexAfterHead(piece, NUL, rest);
    assert s[..|piece|] == piece && s[|piece| + 1..] == rest;
  }

  lemma {:induction false} ReadsRendering(entries: seq<Entry>, env: map<seq<Byte>, seq<Byte>>)
    requires forall e <- entries :: Proper(e)
    ensures ReadFrom(Render(entries), Reading(true, env)).env == Update(env, entries)
    decreases |entries|
  {
    if entries != [] {
      var (name, value) := entries[0];
      assert Proper(entries[0]);
      var piece := name + [EQUALS] + value;
      NextPiece(piece, Render(entries[1..]), Reading(true, env));
      IndexAfterHead(name, EQUALS, value);
      assert piece[..|name|] == name && piece[|name| + 1..] == value;
      ReadsRendering(entries[1..], env[name := value]);
    }
  }

  /** The first piece of some text: everything before its first NUL. */
  lemma FirstPiece(s: seq<Byte>) returns (piece: seq<Byte>, rest: seq<Byte>)
    requires NUL in s
    ensures s == piece + [NUL] + rest && NUL !in piece
  {
    if s[0] == NUL {
      piece, rest := [], s[1..];
    } else {
      piece, rest := FirstPiece(s[1..]);
      piece := [s[0]] + piece;
    }
  }

  lemma EndsAlike(before: seq<Byte>, s: seq<Byte>, end: seq<Byte>)
    ensures EndsWith(s, end) ==> EndsWith(before + s, end)
  {
    if |end| <= |s| {
      assert (before + s)[|before + s| - |end|..] == s[|s| - |end|..];
    }
  }

  lemma QuietRest(piece: seq<Byte>, rest: seq<Byte>)
    requires Quiet(piece + [NUL] + rest)
    ensures !EndsWith(piece, Marker()) && Quiet(rest)
  {
    var noise := piece + [NUL] + rest;
    assert noise[|piece|] == NUL && noise[..|piece|] == piece;
    forall j | 0 <= j < |rest| && rest[j] == NUL ensures !EndsWith(rest[..j], Marker()) {
      var at := |piece| + 1 + j;
      assert noise[at] == NUL && noise[..at] == piece + [NUL] + rest[..j];
      EndsAlike(piece + [NUL], rest[..j], Marker());
    }
  }

  /** Whatever quiet noise comes first, reading starts right after the marker. */
  lemma {:induction false} SkipsNoise(noise: seq<Byte>, rest: seq<Byte>)
    requires Quiet(noise)
    ensures ReadFrom(noise + Marker() + [NUL] + rest, Reading(false, map[])) == ReadFrom(rest, Reading(true, map[]))
    decreases |noise|
  {
    if NUL !in noise {
      var piece := noise + Marker();
      assert piece[|piece| - |Marker()|..] == Marker();
      NextPiece(piece, rest, Reading(false, map[]));
    } else {
      var piece, after := FirstPiece(noise);
      QuietRest(piece, after);
      assert noise + Marker() + [NUL] + rest == piece + [NUL] + (after + Marker() + [NUL] + rest);
      NextPiece(piece, after + Marker() + [NUL] + rest, Reading(false, map[]));
      SkipsNoise(after, rest);
    }
  }

  /** Parsing noise, the marker and the rendering of a list gives exactly that list as a
      map, the last of duplicate names winning. */
  lemma ProbeRoundTrip(noise: seq<Byte>, entries: seq<Entry>)
    requires Quiet(noise) && forall e <- entries :: Proper(e)
    ensures Parse(noise + Marker() + [NUL] + Render(entries)) == Update(map[], entries)
  {
    SkipsNoise(noise, Render(entries));
    ReadsRendering(entries, map[]);
  }

  /** Without a marker followed by NUL nothing is read at all. */
  lemma {:induction false} NoMarkerNoEnvironment(stdout: seq<Byte>)
    requires Quiet(stdout)
    ensures Parse(stdout) == map[]
    decreases |stdout|
  {
    if NUL !in stdout {
      NoSuchByte(stdout, NUL);
    } else {
      var piece, rest := FirstPiece(stdout);
      QuietRest(piece, rest);
      NextPiece(piece, rest, Reading(false, map[]));
      NoMarkerNoEnvironment(rest);
    }
  }

  // -------------------------------------------------------------- what each piece means

  /** A piece sets a variable if there is a name, not empty, before its first '='; otherwise
      it sets nothing. */
  predicate Means(piece: seq<Byte>, entry: seq<Entry>) {
    if entry == [] then EQUALS !in piece || (piece != [] && piece[0] == EQUALS)
    else |entry| == 1 && entry[0].0 != [] && EQUALS !in entry[0].0 && piece == entry[0].0 + [EQUALS] + entry[0].1
  }

  lemma TakesWhatItMeans(env: map<seq<Byte>, seq<Byte>>, piece: seq<Byte>, entry: seq<Entry>)
    requires Means(piece, entry)
    ensures TakePiece(Reading(true, env), piece) == Reading(true, Update(env, entry))
  {
    if entry == [] {
      if EQUALS !in piece { NoSuchByte(piece, EQUALS); }
    } else {
      var (name, value) := entry[0];
      IndexAfterHead(name, EQUALS, value);
      assert piece[..|name|] == name && piece[|name| + 1..] == value;
      assert entry[1..] == [];
    }
  }

  /** Pieces, each followed by NUL, and what they set. */
  function Joined(pieces: seq<(seq<Byte>, seq<Entry>)>): seq<Byte> {
    if pieces == [] then [] else pieces[0].0 + [NUL] + Joined(pieces[1..])
  }

  function Given(pieces: seq<(seq<Byte>, seq<Entry>)>): seq<Entry> {
    if pieces == [] then [] else pieces[0].1 + Given(pieces[1..])
  }

  lemma {:induction false} UpdateConcat(env: map<seq<Byte>, seq<Byte>>, a: seq<Entry>, b: seq<Entry>)
    ensures Update(env, a + b) == Update(Update(env, a), b)
    decreases |a|
  {
    if a == [] {
      assert a + b == b;
    } else {
      assert (a + b)[0] == a[0] && (a + b)[1..] == a[1..] + b;
      UpdateConcat(env[a[0].0 := a[0].1], a[1..], b);
    }
  }

  lemma {:induction false} ReadsPieces(pieces: seq<(seq<Byte>, seq<Entry>)>, last: seq<Byte>, entry: seq<Entry>, env: map<seq<Byte>, seq<Byte>>)
    requires forall p <- pieces :: NUL !in p.0 && Means(p.0, p.1)
    requires NUL !in last && Means(last, entry)
    ensures ReadFrom(Joined(pieces) + last, Reading(true, env)).env == Update(env, Given(pieces) + entry)
    decreases |pieces|
  {
    if pieces == [] {
      assert Joined(pieces) + last == last && Given(pieces) + entry == entry;
      NoSuchByte(last, NUL);
      TakesWhatItMeans(env, last, entry);
    } else {
      var (piece, given) := pieces[0];
      assert NUL !in pieces[0].0 && Means(pieces[0].0, pieces[0].1);
      assert Joined(pieces) + last == piece + [NUL] + (Joined(pieces[1..]) + last);
      NextPiece(piece, Joined(pieces[1..]) + last, Reading(true, env));
      TakesWhatItMeans(env, piece, given);
      ReadsPieces(pieces[1..], last, entry, Update(env, given));
      UpdateConcat(env, given, Given(pieces[1..]) + entry);
      assert Given(pieces) + entry == given + (Given(pieces[1..]) + entry);
    }
  }

  /** After the marker every piece counts, the one without a NUL at the end too: those that
      set a variable set it, in order, and all others are passed over. */
  lemma EveryPieceCounts(noise: seq<Byte>, pieces: seq<(seq<Byte>, seq<Entry>)>, last: seq<Byte>, entry: seq<Entry>)
    requires Quiet(noise) && (forall p <- pieces :: NUL !in p.0 && Means(p.0, p.1)) && NUL !in last && Means(last, entry)
    ensures Parse(noise + Marker() + [NUL] + (Joined(pieces) + last)) == Update(map[], Given(pieces) + entry)
  {
    SkipsNoise(noise, Joined(pieces) + last);
    ReadsPieces(pieces, last, entry, map[]);
  }
}
