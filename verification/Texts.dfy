/** Splitting a sequence at the first occurrence of a separator, and trimming text. */
module Texts {
  function IndexOf<T(==)>(s: seq<T>, x: T): nat {
    if s == [] || s[0] == x then 0 else 1 + IndexOf(s[1..], x)
  }

  lemma {:induction false} IndexAfterHead<T>(head: seq<T>, x: T, tail: seq<T>)
    requires x !in head
    ensures IndexOf(head + [x] + tail, x) == |head|
  {
    if head == [] {
      assert (head + [x] + tail)[0] == x;
    } else {
      IndexAfterHead(head[1..], x, tail);
      assert (head + [x] + tail)[0] == head[0] && (head + [x] + tail)[1..] == head[1..] + [x] + tail;
    }
  }

  /** Heads free of the separator are determined by the joined sequence. */
  lemma SplitUnique<T>(a: seq<T>, b: seq<T>, x: T, p: seq<T>, q: seq<T>)
    requires x !in a && x !in b && a + [x] + p == b + [x] + q
    ensures a == b && p == q
  {
    IndexAfterHead(a, x, p);
    IndexAfterHead(b, x, q);
    assert a == (a + [x] + p)[..|a|] && b == (b + [x] + q)[..|b|];
    assert p == (a + [x] + p)[|a| + 1..] && q == (b + [x] + q)[|b| + 1..];
  }

  /** The Unicode White_Space characters, as Rust's `char::is_whitespace` and `str::trim` take them. */
  predicate IsWhitespace(c: char) {
    || '\U{0009}' <= c <= '\U{000D}' || c == ' ' || c == '\U{0085}' || c == '\U{00A0}' || c == '\U{1680}'
    || '\U{2000}' <= c <= '\U{200A}' || c == '\U{2028}' || c == '\U{2029}' || c == '\U{202F}' || c == '\U{205F}' || c == '\U{3000}'
  }

  function TrimStart(s: string): (r: string)
    ensures |r| <= |s|
    ensures r != [] ==> !IsWhitespace(r[0])
  {
    if s != [] && IsWhitespace(s[0]) then TrimStart(s[1..]) else s
  }

  function TrimEnd(s: string): (r: string)
    ensures r <= s
    ensures r != [] ==> !IsWhitespace(r[|r| - 1])
  {
    if s != [] && IsWhitespace(s[|s| - 1]) then TrimEnd(s[..|s| - 1]) else s
  }

  function Trim(s: string): string { TrimEnd(TrimStart(s)) }

  lemma TrimStartMakesNone(s: string, c: char)
    requires c !in s
    ensures c !in TrimStart(s)
  {
    if s != [] && IsWhitespace(s[0]) { TrimStartMakesNone(s[1..], c); }
  }

  /** Trimming brings in no new character. */
  lemma TrimMakesNone(s: string, c: char)
    requires c !in s
    ensures c !in Trim(s)
  {
    TrimStartMakesNone(s, c);
    assert Trim(s) <= TrimStart(s);
  }

  predicate Blank(s: string) { forall c <- s :: IsWhitespace(c) }

  lemma {:induction false} TrimStartSplits(s: string) returns (before: string)
    ensures s == before + TrimStart(s) && Blank(before)
  {
    if s != [] && IsWhitespace(s[0]) {
      before := TrimStartSplits(s[1..]);
      before := [s[0]] + before;
    } else {
      before := [];
    }
  }

  lemma {:induction false} TrimEndSplits(s: string) returns (after: string)
    ensures s == TrimEnd(s) + after && Blank(after)
  {
    if s != [] && IsWhitespace(s[|s| - 1]) {
      after := TrimEndSplits(s[..|s| - 1]);
      after := after + [s[|s| - 1]];
    } else {
      after := [];
    }
  }

  /** Trimming takes off white space at both ends, as much as there is. */
  lemma TrimSplits(s: string) returns (before: string, after: string)
    ensures s == before + Trim(s) + after && Blank(before) && Blank(after)
    ensures Trim(s) != [] ==> !IsWhitespace(Trim(s)[0]) && !IsWhitespace(Trim(s)[|Trim(s)| - 1])
  {
    before := TrimStartSplits(s);
    after := TrimEndSplits(TrimStart(s));
  }

  lemma TrimEmptyIffBlank(s: string)
    ensures Trim(s) == "" <==> Blank(s)
  {
    var before, after := TrimSplits(s);
    if Trim(s) != "" { assert Trim(s)[0] in s; }
  }

  /** Text without white space at its ends is left alone. */
  lemma TrimIsIdle(s: string)
    requires s != [] ==> !IsWhitespace(s[0]) && !IsWhitespace(s[|s| - 1])
    ensures Trim(s) == s
  {
  }
}
