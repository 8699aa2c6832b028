/** Paths inside a project root (src/lib/fileRootUtils.ts). Letter case is folded for ASCII
    letters only. */
module RootPaths {
  import opened Wrappers

  // ------------------------------------------------------------------- the model

  function Slashes(s: string): (r: string)
    ensures |r| == |s| && forall i | 0 <= i < |s| :: r[i] == if s[i] == '\\' then '/' else s[i]
  {
    seq(|s|, i requires 0 <= i < |s| => if s[i] == '\\' then '/' else s[i])
  }

  predicate IsLetter(c: char) { 'A' <= c <= 'Z' || 'a' <= c <= 'z' }
  function Upper(c: char): char { if 'a' <= c <= 'z' then c - 'a' + 'A' else c }
  function LowerChar(c: char): char { if 'A' <= c <= 'Z' then c - 'A' + 'a' else c }

  function Lower(s: string): (r: string)
    ensures |r| == |s| && forall i | 0 <= i < |s| :: r[i] == LowerChar(s[i])
  {
    seq(|s|, i requires 0 <= i < |s| => LowerChar(s[i]))
  }

  predicate Drive(s: string) { |s| >= 3 && IsLetter(s[0]) && s[1] == ':' && s[2] == '/' }
  predicate DriveRoot(s: string) { |s| == 3 && Drive(s) }
  predicate SlashDrive(s: string) { |s| >= 4 && s[0] == '/' && Drive(s[1..]) }
  predicate Unc(s: string) { |s| >= 2 && s[0] == '/' && s[1] == '/' }
  predicate EndsInSlash(s: string) { s != "" && s[|s| - 1] == '/' }

  function StripLead(s: string): (r: string)
    ensures r != "" ==> r[0] != '/'
  {
    if s != "" && s[0] == '/' then StripLead(s[1..]) else s
  }

  function StripTrail(s: string): (r: string)
    ensures r <= s && !EndsInSlash(r)
    ensures !EndsInSlash(s) ==> r == s
  {
    if EndsInSlash(s) then StripTrail(s[..|s| - 1]) else s
  }

  predicate Collapsed(s: string) { forall i | 0 <= i < |s| - 1 :: s[i] == '/' ==> s[i + 1] != '/' }

  lemma CollapsedParts(s: string)
    requires Collapsed(s) && s != ""
    ensures Collapsed(s[1..]) && Collapsed(s[..|s| - 1])
    ensures |s| >= 2 ==> !(s[0] == '/' && s[1] == '/') && !(s[|s| - 2] == '/' && s[|s| - 1] == '/')
  {
    var tail, init := s[1..], s[..|s| - 1];
    forall i | 0 <= i < |tail| - 1 && tail[i] == '/' ensures tail[i + 1] != '/' {
      assert s[i + 1] == '/';
    }
    forall i | 0 <= i < |init| - 1 && init[i] == '/' ensures init[i + 1] != '/' {
      assert s[i] == '/';
    }
    if |s| >= 2 {
      assert s[0] == '/' ==> s[0 + 1] != '/';
      var k := |s| - 2;
      assert s[k] == '/' ==> s[k + 1] != '/';
    }
  }

  /** Every run of slashes becomes one. */
  function Collapse(s: string): (r: string)
    ensures Collapsed(r) && (r == "" <==> s == "")
    ensures s != "" ==> r[0] == s[0] && r[|r| - 1] == s[|s| - 1]
    ensures Collapsed(s) ==> r == s
  {
    if |s| < 2 then s
    else if s[0] == '/' && s[1] == '/' then Collapse(s[1..])
    else
      assert Collapsed(s) ==> Collapsed(s[1..]) by { if Collapsed(s) { CollapsedParts(s); } }
      [s[0]] + Collapse(s[1..])
  }

  function CapitalDrive(s: string): string { if Drive(s) then [Upper(s[0])] + s[1..] else s }

  /** No slash at the end, but for the roots `/` and `X:/`. */
  function End(e: string): string {
    if |e| > 1 && EndsInSlash(e) && !DriveRoot(e) then StripTrail(e) else e
  }

  function Tidy(s: string): string { End(if Unc(s) then "//" + StripLead(Collapse(s)) else Collapse(s)) }

  function Normalize(path: string): string {
    var a := Slashes(path);
    Tidy(CapitalDrive(if SlashDrive(a) then a[1..] else a))
  }

  function Comparable(s: string): (r: string)
    ensures |r| == |s|
  {
    if Drive(s) || Unc(s) then Lower(s) else s
  }

  predicate Within(absolute: string, root: string) {
    var a, r := Comparable(Normalize(absolute)), Comparable(Normalize(root));
    a == r || r + "/" <= a
  }

  function ResolveAbsolute(root: string, file: string): string {
    var f := StripLead(Slashes(file));
    Normalize(if f != "" then Normalize(root) + "/" + f else Normalize(root))
  }

  function ResolveRelative(absolute: string, root: string): Option<string> {
    if !Within(absolute, root) then None
    else
      var a, r := Normalize(absolute), Normalize(root);
      if Lower(a) == Lower(r) then Some("")
      else Some(StripLead(a[|r|..]))
  }

  // ------------------------------------------------------------------ normal form

  predicate Normal(r: string) {
    && '\\' !in r && !SlashDrive(r) && (Drive(r) ==> Upper(r[0]) == r[0])
    && if Unc(r) then |r| > 2 && Collapsed(r[1..]) && !EndsInSlash(r)
       else Collapsed(r) && (EndsInSlash(r) ==> r == "/" || DriveRoot(r))
  }

  lemma {:induction false} NoBackslashes(s: string)
    requires '\\' !in s
    ensures '\\' !in Collapse(s) && '\\' !in StripLead(s) && '\\' !in StripTrail(s)
  {
    if s != "" {
      assert forall c <- s[1..] :: c in s;
      NoBackslashes(s[1..]);
      assert forall c <- StripTrail(s) :: c in s;
    }
  }

  lemma CollapsedStripLead(s: string)
    requires Collapsed(s)
    ensures StripLead(s) == (if s != "" && s[0] == '/' then s[1..] else s)
    ensures Collapsed(StripLead(s))
  {
    if s != "" { CollapsedParts(s); }
  }

  lemma CollapsedStripTrail(s: string)
    requires Collapsed(s) && EndsInSlash(s)
    ensures StripTrail(s) == s[..|s| - 1] && Collapsed(StripTrail(s))
  {
    CollapsedParts(s);
  }

  lemma CollapseHead(c: char, t: string)
    requires t == "" || c != '/' || t[0] != '/'
    ensures Collapse([c] + t) == [c] + Collapse(t)
  {
    assert ([c] + t)[1..] == t;
  }

  lemma HeadFirst(a: string, s: string)
    requires a != ""
    ensures a + s == [a[0]] + (a[1..] + s)
  {
  }

  lemma NoSlashMeets(a: string, s: string)
    requires Collapsed(a) && !EndsInSlash(a) && a != ""
    ensures var t := a[1..] + s; t == "" || a[0] != '/' || t[0] != '/'
    ensures Collapsed(a[1..]) && !EndsInSlash(a[1..])
  {
    CollapsedParts(a);
  }

  /** A tidy beginning that does not end in a slash is left alone. */
  lemma {:induction false} CollapseAfter(a: string, s: string)
    requires Collapsed(a) && !EndsInSlash(a)
    ensures Collapse(a + s) == a + Collapse(s)
  {
    if a == "" {
      assert a + s == s && a + Collapse(s) == Collapse(s);
    } else {
      NoSlashMeets(a, s);
      CollapseAfter(a[1..], s);
      CollapseHead(a[0], a[1..] + s);
      HeadFirst(a, s);
      HeadFirst(a, Collapse(s));
    }
  }

  lemma CollapseSlash(s: string)
    requires s != "" && s[0] != '/'
    ensures Collapse("/" + s) == "/" + Collapse(s) && Collapse("//" + s) == "/" + Collapse(s)
  {
    assert ("/" + s)[1..] == s && ("//" + s)[1..] == "/" + s;
  }

  lemma DriveSurvives(s: string)
    ensures Drive(Collapse(s)) <==> Drive(s)
    ensures !Unc(s) ==> (SlashDrive(Collapse(s)) <==> SlashDrive(s))
  {
    StartSurvives(s);
    if s != "" && s[0] == '/' && !Unc(s) && |s| >= 2 {
      assert Collapse(s)[1..] == Collapse(s[1..]);
      StartSurvives(s[1..]);
    }
  }

  lemma StartSurvives(s: string)
    ensures Drive(Collapse(s)) <==> Drive(s)
  {
    if |s| >= 3 && IsLetter(s[0]) && s[1] == ':' {
      CollapseAfter(s[..2], s[2..]);
      assert s == s[..2] + s[2..];
      assert Collapse(s) == s[..2] + Collapse(s[2..]);
    }
  }

  /** What `Tidy` is given: forward slashes only, and a capital drive letter up front or none. */
  predicate Ready(c: string) {
    '\\' !in c && !SlashDrive(c) && (Drive(c) ==> Upper(c[0]) == c[0])
  }

  lemma PreparedIsReady(path: string)
    ensures var a := Slashes(path); Ready(CapitalDrive(if SlashDrive(a) then a[1..] else a))
  {
    var a := Slashes(path);
    var b := if SlashDrive(a) then a[1..] else a;
    assert forall i | 0 <= i < |a| :: a[i] != '\\';
    assert '\\' !in b;
    assert !SlashDrive(b);
    if Drive(b) {
      var c := [Upper(b[0])] + b[1..];
      assert forall i | 1 <= i < |c| :: c[i] == b[i];
    }
  }

  /** Dropping the last slash of a collapsed text. */
  lemma DropLastSlash(e: string)
    requires Ready(e) && !Unc(e) && Collapsed(e) && EndsInSlash(e) && |e| > 1
    ensures StripTrail(e) == e[..|e| - 1] && Normal(e[..|e| - 1])
  {
    CollapsedStripTrail(e);
    CollapsedParts(e);
    var t := e[..|e| - 1];
    assert forall ch <- t :: ch in e;
  }

  lemma TidyPlainIsNormal(c: string)
    requires Ready(c) && !Unc(c)
    ensures Normal(Tidy(c))
  {
    var e := Collapse(c);
    NoBackslashes(c);
    DriveSurvives(c);
    assert !Unc(e) by { if |e| > 1 { assert e[0] == '/' ==> e[0 + 1] != '/'; } }
    assert Ready(e);
    if EndsInSlash(e) && |e| > 1 { DropLastSlash(e); }
  }

  lemma {:induction false} StripTrailAfter(a: string, b: string)
    requires StripTrail(b) != ""
    ensures StripTrail(a + b) == a + StripTrail(b)
  {
    if EndsInSlash(b) {
      assert (a + b)[..|a + b| - 1] == a + b[..|b| - 1];
      StripTrailAfter(a, b[..|b| - 1]);
    }
  }

  lemma {:induction false} StripTrailKeepsFirst(s: string)
    requires s != "" && s[0] != '/'
    ensures StripTrail(s) != "" && StripTrail(s)[0] == s[0]
  {
    if EndsInSlash(s) { StripTrailKeepsFirst(s[..|s| - 1]); }
  }

  lemma AfterSlashCollapsed(x: string)
    requires Collapsed(x) && (x == "" || x[0] != '/')
    ensures Collapsed("/" + x)
  {
    var s := "/" + x;
    forall i | 0 <= i < |s| - 1 && s[i] == '/' ensures s[i + 1] != '/' {
      if i > 0 { assert x[i - 1] == '/'; }
    }
  }

  lemma TwoSlashesGo()
    ensures StripTrail("//") == ""
  {
    assert "//"[..1] == "/" && "/"[..0] == "";
  }

  /** A share: two slashes and a collapsed text that does not start with one. */
  lemma ShareIsNormal(x: string)
    requires Collapsed(x) && x != "" && x[0] != '/' && '\\' !in x
    ensures StripTrail("//" + x) == "//" + StripTrail(x) && Normal("//" + StripTrail(x))
  {
    StripTrailKeepsFirst(x);
    StripTrailAfter("//", x);
    NoBackslashes(x);
    if EndsInSlash(x) { CollapsedStripTrail(x); }
    var t := StripTrail(x);
    AfterSlashCollapsed(t);
    var r := "//" + t;
    assert r[1..] == "/" + t && r[|r| - 1] == t[|t| - 1];
  }

  lemma TidyUncIsNormal(c: string)
    requires Ready(c) && Unc(c)
    ensures Normal(Tidy(c))
  {
    var d := Collapse(c);
    NoBackslashes(c);
    CollapsedStripLead(d);
    CollapsedParts(d);
    var x := d[1..];
    assert StripLead(d) == x;
    assert forall ch <- x :: ch in d;
    if x == "" {
      TwoSlashesGo();
      assert "//" + x == "//";
    } else {
      ShareIsNormal(x);
      assert Tidy(c) == StripTrail("//" + x);
    }
  }

  lemma NormalizeIsNormal(path: string)
    ensures Normal(Normalize(path))
  {
    PreparedIsReady(path);
    var a := Slashes(path);
    var c := CapitalDrive(if SlashDrive(a) then a[1..] else a);
    if Unc(c) { TidyUncIsNormal(c); } else { TidyPlainIsNormal(c); }
  }

  lemma NormalIsFixed(r: string)
    requires Normal(r)
    ensures Normalize(r) == r
  {
    assert Slashes(r) == r;
    assert CapitalDrive(r) == r by { if Drive(r) { assert [r[0]] + r[1..] == r; } }
    if Unc(r) {
      assert Collapse(r) == Collapse(r[1..]) == r[1..];
      CollapsedStripLead(r[1..]);
      assert "//" + r[2..] == r && r[1..][1..] == r[2..];
    }
  }

  /** Normalising twice is normalising once, on every string. */
  lemma NormalizeIsIdempotent(path: string)
    ensures Normalize(Normalize(path)) == Normalize(path)
  {
    NormalizeIsNormal(path);
    NormalIsFixed(Normalize(path));
  }

  /** The normalisation as it runs: one local rewritten step by step. */
  method NormalizeAbsolutePath(path: string) returns (normalized: string)
    ensures normalized == Normalize(path) && Normal(normalized)
  {
    NormalizeIsNormal(path);
    normalized := Slashes(path);
    if SlashDrive(normalized) { normalized := normalized[1..]; }
    if Drive(normalized) { normalized := [Upper(normalized[0])] + normalized[1..]; }
    var isUnc := Unc(normalized);
    normalized := Collapse(normalized);
    if isUnc { normalized := "//" + StripLead(normalized); }
    if |normalized| > 1 && EndsInSlash(normalized) && !DriveRoot(normalized) { normalized := StripTrail(normalized); }
  }

  // ------------------------------------------------------------------- round trip

  /** The relative path a caller means: forward slashes, none at either end, none doubled. */
  function Cleaned(file: string): string { StripTrail(Collapse(StripLead(Slashes(file)))) }

  predicate BareDrive(r: string) { |r| == 2 && IsLetter(r[0]) && r[1] == ':' }
  predicate SlashBareDrive(r: string) { |r| == 3 && r[0] == '/' && BareDrive(r[1..]) }

  /** Roots that only look like one: a drive root, or a bare drive as it will not be compared. */
  predicate BadRoot(r: string) { DriveRoot(r) || SlashBareDrive(r) || (BareDrive(r) && Upper(r[0]) == r[0]) }

  /** Roots inside which paths resolve and relativise faithfully. */
  predicate GoodRoot(r: string) { r != "" && !BadRoot(r) }

  /** What a file inside the root `r` resolves to. */
  function Joined(r: string, g: string): string {
    if r == "/" then "//" + g else if BareDrive(r) then [Upper(r[0])] + r[1..] + "/" + g else r + "/" + g
  }

  /** A relative path as `ResolveAbsolute` appends it. */
  predicate Relative(f: string) { f != "" && f[0] != '/' && '\\' !in f }

  lemma RelativeParts(f: string)
    requires Relative(f)
    ensures var g := StripTrail(Collapse(f)); g != "" && g[0] == f[0]
  {
    StripTrailKeepsFirst(Collapse(f));
  }

  /** The end of a tidied join loses its slashes. */
  lemma JoinEnds(a: string, f: string)
    requires Relative(f) && |a| >= 2 && EndsInSlash(a)
    ensures End(a + Collapse(f)) == a + StripTrail(Collapse(f))
  {
    RelativeParts(f);
    StripTrailAfter(a, Collapse(f));
    var e := a + Collapse(f);
    assert e[|e| - 1] == Collapse(f)[|Collapse(f)| - 1];
    assert !DriveRoot(e) by { if |e| == 3 { assert e[1] == a[1]; } }
  }

  lemma Regroup(a: string, b: string, c: string)
    ensures a + b + c == a + (b + c)
  {
  }

  lemma CollapseJoin(r: string, f: string)
    requires Relative(f) && Collapsed(r) && !EndsInSlash(r)
    ensures Collapse(r + "/" + f) == r + "/" + Collapse(f)
  {
    Regroup(r, "/", f);
    CollapseAfter(r, "/" + f);
    CollapseSlash(f);
    Regroup(r, "/", Collapse(f));
  }

  lemma PlainJoinIsPlain(r: string, f: string)
    requires r != "" && Collapsed(r) && !EndsInSlash(r)
    ensures !Unc(r + "/" + f)
  {
    if |r| >= 2 { CollapsedParts(r); }
  }

  lemma TidyPlainJoin(r: string, f: string)
    requires Relative(f) && r != "" && Collapsed(r) && !EndsInSlash(r)
    ensures Tidy(r + "/" + f) == (r + "/") + StripTrail(Collapse(f))
  {
    PlainJoinIsPlain(r, f);
    CollapseJoin(r, f);
    JoinEnds(r + "/", f);
  }

  lemma ShareParts(r: string, x: string)
    requires Unc(r)
    ensures (r + "/" + x)[1..] == r[1..] + "/" + x
    ensures "//" + (r[1..] + "/" + x)[1..] == r + "/" + x
  {
  }

  lemma ShareJoin(r: string, f: string)
    requires Relative(f) && Normal(r) && Unc(r)
    ensures "//" + StripLead(Collapse(r + "/" + f)) == r + "/" + Collapse(f)
  {
    ShareParts(r, f);
    CollapseJoin(r[1..], f);
    CollapsedStripLead(Collapse(r[1..] + "/" + f));
    ShareParts(r, Collapse(f));
  }

  lemma TidyShareJoin(r: string, f: string)
    requires Relative(f) && Normal(r) && Unc(r)
    ensures Tidy(r + "/" + f) == (r + "/") + StripTrail(Collapse(f))
  {
    ShareJoin(r, f);
    assert Unc(r + "/" + f);
    JoinEnds(r + "/", f);
  }

  lemma TidyTopJoin(f: string)
    requires Relative(f)
    ensures Tidy("/" + "/" + f) == "//" + StripTrail(Collapse(f))
  {
    assert "/" + "/" + f == "//" + f;
    CollapseSlash(f);
    CollapsedStripLead("/" + Collapse(f));
    assert ("/" + Collapse(f))[1..] == Collapse(f);
    JoinEnds("//", f);
  }

  lemma JoinSlashDrive(r: string, f: string)
    requires r != "" && SlashDrive(r + "/" + f)
    ensures SlashDrive(r) || SlashBareDrive(r)
  {
    var s := r + "/" + f;
    assert s[1] == s[1..][0] && s[2] == s[1..][1] && s[3] == s[1..][2];
  }

  /** No step before tidying touches the join, but for the letter of a bare drive. */
  lemma JoinPrepared(r: string, f: string)
    requires Relative(f) && Normal(r) && GoodRoot(r)
    ensures var s := r + "/" + f;
            && Slashes(s) == s && !SlashDrive(s)
            && CapitalDrive(s) == if BareDrive(r) then [Upper(r[0])] + r[1..] + "/" + f else s
  {
    var s := r + "/" + f;
    assert Slashes(s) == s;
    assert !SlashDrive(s) by { if SlashDrive(s) { JoinSlashDrive(r, f); } }
    if Drive(s) {
      if |r| == 2 {
        assert BareDrive(r);
        assert s[1..] == r[1..] + "/" + f;
      } else {
        assert Drive(r);
        assert [s[0]] + s[1..] == s;
      }
    }
  }

  lemma JoinNormalizes(r: string, f: string)
    requires Relative(f) && Normal(r) && GoodRoot(r)
    ensures Normalize(r + "/" + f) == Joined(r, StripTrail(Collapse(f)))
  {
    JoinPrepared(r, f);
    if r == "/" {
      TidyTopJoin(f);
    } else if BareDrive(r) {
      TidyPlainJoin([Upper(r[0])] + r[1..], f);
    } else if Unc(r) {
      TidyShareJoin(r, f);
    } else {
      TidyPlainJoin(r, f);
    }
  }

  lemma JoinedIsWithin(r: string, g: string)
    requires Normal(r) && GoodRoot(r) && g != "" && g[0] != '/'
    ensures Comparable(r) + "/" <= Comparable(Joined(r, g))
  {
    var a := Joined(r, g);
    if r != "/" && !BareDrive(r) {
      assert Drive(a) <==> Drive(r) by { if |r| == 1 { assert a[1] == '/'; } }
      assert Unc(a) <==> Unc(r) by { if |r| == 1 { assert a[0] == r[0]; } }
    } else if BareDrive(r) {
      assert Drive(a);
    } else {
      assert Unc(a) && a[0] == '/' && a[1] == '/';
    }
  }

  lemma JoinedTail(r: string, g: string)
    requires r != "" && g != "" && g[0] != '/'
    ensures |Joined(r, g)| > |r| && Joined(r, g)[|r|..] == "/" + g && StripLead("/" + g) == g
  {
    assert ("/" + g)[1..] == g;
  }

  lemma ResolvesToJoined(root: string, file: string)
    requires GoodRoot(Normalize(root)) && StripLead(Slashes(file)) != ""
    ensures ResolveAbsolute(root, file) == Joined(Normalize(root), Cleaned(file))
    ensures Cleaned(file) != "" && Cleaned(file)[0] != '/'
  {
    var f := StripLead(Slashes(file));
    NormalizeIsNormal(root);
    NoBackslashes(Slashes(file));
    RelativeParts(f);
    JoinNormalizes(Normalize(root), f);
  }

  /** Inside a good root every path resolves to a place within the root, and relativising
      it gives the path back with its slashes cleaned up. */
  lemma ResolveRoundTrip(root: string, file: string)
    requires GoodRoot(Normalize(root))
    ensures Within(ResolveAbsolute(root, file), root)
    ensures ResolveRelative(ResolveAbsolute(root, file), root) == Some(Cleaned(file))
  {
    var r := Normalize(root);
    var a := ResolveAbsolute(root, file);
    NormalizeIsNormal(root);
    NormalizeIsIdempotent(root);
    if StripLead(Slashes(file)) != "" {
      var f := StripLead(Slashes(file));
      ResolvesToJoined(root, file);
      NormalizeIsIdempotent(r + "/" + f);
      JoinedIsWithin(r, Cleaned(file));
      JoinedTail(r, Cleaned(file));
      assert |Lower(a)| > |Lower(r)|;
    }
  }

  // ------------------------------------------------------------- the roots that fail

  lemma DriveNormalizes(x: char, rest: string)
    requires IsLetter(x) && '\\' !in rest
    ensures Normalize([x, ':', '/'] + rest) == End(Collapse([Upper(x), ':', '/'] + rest))
  {
    var s := [x, ':', '/'] + rest;
    assert Slashes(s) == s;
    assert s[1..] == [':', '/'] + rest;
    assert [Upper(x)] + ([':', '/'] + rest) == [Upper(x), ':', '/'] + rest;
  }

  lemma PlainDriveFile(x: char)
    requires IsLetter(x)
    ensures Normalize([x, ':', '/', 'x']) == [Upper(x), ':', '/', 'x']
  {
    var a := [Upper(x), ':', '/', 'x'];
    assert Collapsed(a);
    assert [Upper(x), ':', '/'] + ['x'] == a && [x, ':', '/'] + ['x'] == [x, ':', '/', 'x'];
    DriveNormalizes(x, ['x']);
  }

  lemma DoubledDriveFile(x: char)
    requires IsLetter(x)
    ensures Normalize([x, ':', '/', '/', 'x']) == [Upper(x), ':', '/', 'x']
  {
    var u := Upper(x);
    DoubledSlash(u);
    assert [x, ':', '/'] + ['/', 'x'] == [x, ':', '/', '/', 'x'] && [u, ':', '/'] + ['/', 'x'] == [u, ':', '/', '/', 'x'];
    DriveNormalizes(x, ['/', 'x']);
  }

  /** The file `x` of a drive, however it is written. */
  lemma DriveFile(x: char)
    requires IsLetter(x)
    ensures Normalize([x, ':', '/', 'x']) == [Upper(x), ':', '/', 'x']
    ensures Normalize([x, ':', '/', '/', 'x']) == [Upper(x), ':', '/', 'x']
    ensures Normalize(['/', x, ':', '/', 'x']) == [Upper(x), ':', '/', 'x']
  {
    PlainDriveFile(x);
    DoubledDriveFile(x);
    SlashGoes(x);
  }

  lemma SlashesMeet()
    ensures Collapse(['/', '/', 'x']) == ['/', 'x']
  {
    assert ['/', '/', 'x'][1..] == ['/', 'x'] && Collapsed(['/', 'x']);
  }

  lemma DoubledSlash(u: char)
    requires u != '/'
    ensures Collapse([u, ':', '/', '/', 'x']) == [u, ':', '/', 'x']
  {
    SlashesMeet();
    assert [':'] + ['/', '/', 'x'] == [':', '/', '/', 'x'] && [':'] + ['/', 'x'] == [':', '/', 'x'];
    CollapseHead(':', ['/', '/', 'x']);
    assert [u] + [':', '/', '/', 'x'] == [u, ':', '/', '/', 'x'] && [u] + [':', '/', 'x'] == [u, ':', '/', 'x'];
    CollapseHead(u, [':', '/', '/', 'x']);
  }

  lemma SlashGoes(x: char)
    requires IsLetter(x)
    ensures Normalize(['/', x, ':', '/', 'x']) == Normalize([x, ':', '/', 'x'])
  {
    var s, t := ['/', x, ':', '/', 'x'], [x, ':', '/', 'x'];
    assert Slashes(s) == s && Slashes(t) == t && s[1..] == t;
  }

  lemma ResolvesBelow(root: string, x: string)
    requires Relative(x)
    ensures ResolveAbsolute(root, x) == Normalize(Normalize(root) + "/" + x)
  {
    assert Slashes(x) == x && StripLead(x) == x;
  }

  function DriveLetter(r: string): char
    requires BadRoot(r)
  {
    if r[0] == '/' then r[1] else r[0]
  }

  lemma BadRootJoin(r: string)
    requires BadRoot(r)
    ensures var x := DriveLetter(r);
            IsLetter(x) && r + "/" + "x" in {['/', x, ':', '/', 'x'], [x, ':', '/', '/', 'x'], [x, ':', '/', 'x']}
  {
    if r[0] == '/' {
      assert r + "/" + "x" == ['/', r[1], ':', '/', 'x'];
    } else if |r| == 3 {
      assert r + "/" + "x" == [r[0], ':', '/', '/', 'x'];
    } else {
      assert r + "/" + "x" == [r[0], ':', '/', 'x'];
    }
  }

  lemma ComparableStart(r: string, a: string)
    requires BadRoot(r) && (Drive(r) ==> Upper(r[0]) == r[0]) && a == [Upper(DriveLetter(r)), ':', '/', 'x']
    ensures Comparable(a) != Comparable(r) && !(Comparable(r) + "/" <= Comparable(a))
  {
    var c, b := Comparable(a), Comparable(r) + "/";
    assert Drive(a) && c == Lower(a);
    assert c[0] == LowerChar(a[0]) && c[3] == LowerChar('x');
    if DriveRoot(r) { assert b[3] == '/'; } else { assert !Drive(r) && !Unc(r) && b[0] == r[0]; }
  }

  /** Under such a root the resolved path is not even within the root: the doubled slash is
      looked for again, a bare drive is compared as written with a path in small letters,
      and the leading slash is gone. */
  lemma BadRootFails(root: string)
    requires BadRoot(Normalize(root))
    ensures !Within(ResolveAbsolute(root, "x"), root)
  {
    var r := Normalize(root);
    NormalizeIsNormal(root);
    ResolvesBelow(root, "x");
    BadRootJoin(r);
    var x := DriveLetter(r);
    DriveFile(x);
    var a := ResolveAbsolute(root, "x");
    NormalizeIsIdempotent(r + "/" + "x");
    ComparableStart(r, a);
  }

  lemma NotUnderEmpty(a: string, r: string)
    requires Drive(a) && |r| == 0
    ensures Comparable(a) != Comparable(r) && !(Comparable(r) + "/" <= Comparable(a))
  {
    assert Comparable(a)[0] == LowerChar(a[0]) != '/';
  }

  lemma DriveLookalike(r: string, file: string, x: char)
    requires |r| == 0 && file == [x, ':', '/', 'x'] && IsLetter(x)
    ensures Relative(file) && r + "/" + file == ['/', x, ':', '/', 'x']
  {
  }

  lemma SlashDriveNormalizes(s: string, x: char)
    requires s == ['/', x, ':', '/', 'x'] && IsLetter(x)
    ensures Drive(Normalize(s)) && Normalize(Normalize(s)) == Normalize(s)
  {
    DriveFile(x);
    NormalizeIsIdempotent(s);
  }

  /** A drive path is not within an empty root. */
  lemma EmptyRootHoldsNoDrive(root: string, a: string)
    requires |Normalize(root)| == 0 && Drive(a) && Normalize(a) == a
    ensures !Within(a, root)
  {
    NotUnderEmpty(a, Normalize(root));
  }

  /** Under an empty root a path that starts like a drive leaves the root. */
  lemma EmptyRootFails(root: string, file: string, x: char)
    requires |Normalize(root)| == 0 && file == [x, ':', '/', 'x'] && IsLetter(x)
    ensures !Within(ResolveAbsolute(root, file), root)
  {
    DriveLookalike(Normalize(root), file, x);
    ResolvesBelow(root, file);
    SlashDriveNormalizes(Normalize(root) + "/" + file, x);
    EmptyRootHoldsNoDrive(root, ResolveAbsolute(root, file));
  }

  /** Resolving and relativising give back every path, cleaned up, exactly if the root
      normalises to something other than nothing, a drive root `X:/`, a bare drive with a
      capital letter, or a bare drive behind a slash. */
  lemma RoundTripIffGoodRoot(root: string)
    ensures (forall file :: ResolveRelative(ResolveAbsolute(root, file), root) == Some(Cleaned(file))) <==> GoodRoot(Normalize(root))
  {
    var r := Normalize(root);
    if GoodRoot(r) {
      forall file ensures ResolveRelative(ResolveAbsolute(root, file), root) == Some(Cleaned(file)) {
        ResolveRoundTrip(root, file);
      }
    } else if r == "" {
      var file := ['c', ':', '/', 'x'];
      EmptyRootFails(root, file, 'c');
      assert ResolveRelative(ResolveAbsolute(root, file), root) != Some(Cleaned(file));
    } else {
      BadRootFails(root);
      assert ResolveRelative(ResolveAbsolute(root, "x"), root) != Some(Cleaned("x"));
    }
  }
}
