/** What a computer-control request mentions anywhere in its arguments
    (src-tauri/src/computer_control_service.rs): the application's own process id, or the
    whole desktop. */
module RequestScope {
  import opened Wrappers

  /** JSON as the checks see it: numbers that fit 64 unsigned bits, text, and containers. */
  datatype Json =
    | Unsigned(number: nat)
    | Text(text: string)
    | Scalar
    | Array(items: seq<Json>)
    | Object(fields: seq<(string, Json)>)

  const U32_LIMIT := 0x1_0000_0000

  function Field(fields: seq<(string, Json)>, key: string): Option<Json> {
    if fields == [] then None else if fields[0].0 == key then Some(fields[0].1) else Field(fields[1..], key)
  }

  function LowerAscii(s: string): string {
    if s == [] then [] else [if 'A' <= s[0] <= 'Z' then s[0] - 'A' + 'a' else s[0]] + LowerAscii(s[1..])
  }

  /** This very object gives the process id explicitly. */
  predicate NamesPid(v: Json, pid: nat) {
    v.Object? && match Field(v.fields, "pid") case Some(Unsigned(n)) => n < U32_LIMIT && n == pid case _ => false
  }

  predicate IsDesktop(field: Option<Json>) {
    match field case Some(Text(text)) => LowerAscii(text) == "desktop" case _ => false
  }

  /** This very object asks for the whole desktop. */
  predicate NamesDesktop(v: Json) {
    v.Object? && (IsDesktop(Field(v.fields, "scope")) || IsDesktop(Field(v.fields, "capture_scope")))
  }

  predicate ContainsPid(v: Json, pid: nat) {
    match v
    case Object(fields) => NamesPid(v, pid) || exists i | 0 <= i < |fields| :: ContainsPid(fields[i].1, pid)
    case Array(items) => exists i | 0 <= i < |items| :: ContainsPid(items[i], pid)
    case _ => false
  }

  predicate ContainsDesktop(v: Json) {
    match v
    case Object(fields) => NamesDesktop(v) || exists i | 0 <= i < |fields| :: ContainsDesktop(fields[i].1)
    case Array(items) => exists i | 0 <= i < |items| :: ContainsDesktop(items[i])
    case _ => false
  }

  /** The value a path of positions leads to, through objects and arrays. */
  function Follow(v: Json, path: seq<nat>): Option<Json> {
    if path == [] then Some(v)
    else if v.Array? && path[0] < |v.items| then Follow(v.items[path[0]], path[1..])
    else if v.Object? && path[0] < |v.fields| then Follow(v.fields[path[0]].1, path[1..])
    else None
  }

  ghost predicate PidAt(v: Json, path: seq<nat>, pid: nat) {
    Follow(v, path).Some? && NamesPid(Follow(v, path).value, pid)
  }

  ghost predicate DesktopAt(v: Json, path: seq<nat>) {
    Follow(v, path).Some? && NamesDesktop(Follow(v, path).value)
  }

  lemma {:induction false} FoundPid(v: Json, path: seq<nat>, pid: nat)
    requires PidAt(v, path, pid)
    ensures ContainsPid(v, pid)
    decreases path
  {
    if path != [] {
      if v.Array? {
        FoundPid(v.items[path[0]], path[1..], pid);
      } else {
        FoundPid(v.fields[path[0]].1, path[1..], pid);
      }
    }
  }

  lemma {:induction false} FindPid(v: Json, pid: nat) returns (path: seq<nat>)
    requires ContainsPid(v, pid)
    ensures PidAt(v, path, pid)
  {
    if NamesPid(v, pid) {
      path := [];
    } else if v.Array? {
      var i :| 0 <= i < |v.items| && ContainsPid(v.items[i], pid);
      var rest := FindPid(v.items[i], pid);
      path := [i] + rest;
    } else {
      var i :| 0 <= i < |v.fields| && ContainsPid(v.fields[i].1, pid);
      var rest := FindPid(v.fields[i].1, pid);
      path := [i] + rest;
    }
  }

  lemma {:induction false} FoundDesktop(v: Json, path: seq<nat>)
    requires DesktopAt(v, path)
    ensures ContainsDesktop(v)
    decreases path
  {
    if path != [] {
      if v.Array? {
        FoundDesktop(v.items[path[0]], path[1..]);
      } else {
        FoundDesktop(v.fields[path[0]].1, path[1..]);
      }
    }
  }

  lemma {:induction false} FindDesktop(v: Json) returns (path: seq<nat>)
    requires ContainsDesktop(v)
    ensures DesktopAt(v, path)
  {
    if NamesDesktop(v) {
      path := [];
    } else if v.Array? {
      var i :| 0 <= i < |v.items| && ContainsDesktop(v.items[i]);
      var rest := FindDesktop(v.items[i]);
      path := [i] + rest;
    } else {
      var i :| 0 <= i < |v.fields| && ContainsDesktop(v.fields[i].1);
      var rest := FindDesktop(v.fields[i].1);
      path := [i] + rest;
    }
  }

  /** The check misses no nesting and invents nothing: the process id is found exactly if
      some object, however deep, names it. */
  lemma ContainsPidIffSomewhere(v: Json, pid: nat)
    ensures ContainsPid(v, pid) <==> exists path :: PidAt(v, path, pid)
  {
    if ContainsPid(v, pid) {
      var path := FindPid(v, pid);
    }
    if path :| PidAt(v, path, pid) {
      FoundPid(v, path, pid);
    }
  }

  lemma ContainsDesktopIffSomewhere(v: Json)
    ensures ContainsDesktop(v) <==> exists path :: DesktopAt(v, path)
  {
    if ContainsDesktop(v) {
      var path := FindDesktop(v);
    }
    if path :| DesktopAt(v, path) {
      FoundDesktop(v, path);
    }
  }

  // ------------------------------------------------------------------- the fields

  /** An object names the process id exactly if its field "pid" is that very number, which
      fits 32 bits. */
  lemma NamesPidIff(v: Json, pid: nat)
    ensures NamesPid(v, pid) <==> v.Object? && Field(v.fields, "pid") == Some(Unsigned(pid)) && pid < 0x1_0000_0000
  {
  }

  /** The same but for the case of ASCII letters. */
  predicate SameButCase(a: string, b: string) {
    |a| == |b| && forall i | 0 <= i < |a| ::
      || a[i] == b[i]
      || ('A' <= a[i] <= 'Z' && b[i] == a[i] - 'A' + 'a')
      || ('a' <= a[i] <= 'z' && b[i] == a[i] - 'a' + 'A')
  }

  lemma {:induction false} LowerAsciiAt(s: string, i: nat)
    requires i < |s|
    ensures |LowerAscii(s)| == |s| && LowerAscii(s)[i] == if 'A' <= s[i] <= 'Z' then s[i] - 'A' + 'a' else s[i]
  {
    if i > 0 {
      LowerAsciiAt(s[1..], i - 1);
    } else if |s| > 1 {
      LowerAsciiAt(s[1..], 0);
    }
  }

  lemma DesktopIgnoresCase(text: string)
    ensures LowerAscii(text) == "desktop" <==> SameButCase(text, "desktop")
  {
    var d := "desktop";
    forall i | 0 <= i < |text| ensures |LowerAscii(text)| == |text| && LowerAscii(text)[i] == if 'A' <= text[i] <= 'Z' then text[i] - 'A' + 'a' else text[i] {
      LowerAsciiAt(text, i);
    }
    assert forall i | 0 <= i < 7 :: 'a' <= d[i] <= 'z';
    if SameButCase(text, d) { assert forall i | 0 <= i < 7 :: LowerAscii(text)[i] == d[i]; }
    if LowerAscii(text) == d { assert forall i | 0 <= i < |text| :: LowerAscii(text)[i] == d[i]; }
  }

  predicate SaysDesktop(fields: seq<(string, Json)>, key: string) {
    var field := Field(fields, key);
    field.Some? && field.value.Text? && SameButCase(field.value.text, "desktop")
  }

  /** An object asks for the desktop exactly if its field "scope" or "capture_scope" is that
      word, in capitals or not. */
  lemma NamesDesktopIff(v: Json)
    ensures NamesDesktop(v) <==> v.Object? && (SaysDesktop(v.fields, "scope") || SaysDesktop(v.fields, "capture_scope"))
  {
    forall text { DesktopIgnoresCase(text); }
  }
}
