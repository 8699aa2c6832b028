/** The key under which the gateway tracks a running tool call: the lease token, a colon
    and the request id as JSON text (src-tauri/src/mcp_gateway.rs, `active_call_key`).
    Request ids are those of section 4 of the JSON-RPC 2.0 specification. */
module RpcIds {
  import opened Numerals
  import opened Texts

  datatype RpcId = Text(text: string) | Number(value: int) | Null

  predicate TokenText(token: string) { ':' !in token }

  /** JSON text of one character, as serde_json escapes it. */
  function EscapeChar(c: char): string {
    if c == '"' then "\\\""
    else if c == '\\' then "\\\\"
    else if c == '\U{8}' then "\\b"
    else if c == '\U{C}' then "\\f"
    else if c == '\n' then "\\n"
    else if c == '\r' then "\\r"
    else if c == '\t' then "\\t"
    else if c < ' ' then "\\u00" + [Digit(c as nat / 16), Digit(c as nat % 16)]
    else [c]
  }

  function Escape(s: string): string {
    if s == "" then "" else EscapeChar(s[0]) + Escape(s[1..])
  }

  function Json(id: RpcId): string {
    match id
    case Text(s) => "\"" + Escape(s) + "\""
    case Number(n) => if n < 0 then "-" + Numeral(-n, 10) else Numeral(n, 10)
    case Null => "null"
  }

  function ActiveCallKey(token: string, id: RpcId): string { token + ":" + Json(id) }

  // ------------------------------------------------------------- injectivity

  /** Reads the first character back from escaped text, with the length of its escape. */
  function Unescape(s: string): (char, nat) {
    if |s| < 2 || s[0] != '\\' then (if s == "" then ' ' else s[0], 1)
    else if s[1] == 'b' then ('\U{8}', 2)
    else if s[1] == 'f' then ('\U{C}', 2)
    else if s[1] == 'n' then ('\n', 2)
    else if s[1] == 'r' then ('\r', 2)
    else if s[1] == 't' then ('\t', 2)
    else if s[1] == 'u' && |s| >= 6 then ((DigitValue(s[4]) * 16 + DigitValue(s[5])) as char, 6)
    else (s[1], 2)
  }

  lemma UnescapeReadsBack(c: char, rest: string)
    ensures Unescape(EscapeChar(c) + rest) == (c, |EscapeChar(c)|)
  {
    var s := EscapeChar(c) + rest;
    assert s[0] == EscapeChar(c)[0];
    if |EscapeChar(c)| == 2 {
      assert s[1] == EscapeChar(c)[1];
    } else if |EscapeChar(c)| == 6 {
      assert s[1] == 'u' && s[4] == Digit(c as nat / 16) && s[5] == Digit(c as nat % 16);
    }
  }

  lemma EscapeCharPrefixFree(a: char, b: char, x: string, y: string)
    requires EscapeChar(a) + x == EscapeChar(b) + y
    ensures a == b && x == y
  {
    UnescapeReadsBack(a, x);
    UnescapeReadsBack(b, y);
    assert x == (EscapeChar(a) + x)[|EscapeChar(a)|..];
    assert y == (EscapeChar(b) + y)[|EscapeChar(b)|..];
  }

  lemma QuoteEndsText(s: string)
    ensures (Escape(s) + "\"")[0] == '"' <==> s == ""
  {
    if s != "" { assert (Escape(s) + "\"")[0] == EscapeChar(s[0])[0]; }
  }

  lemma EscapeHead(s: string)
    requires s != ""
    ensures Escape(s) + "\"" == EscapeChar(s[0]) + (Escape(s[1..]) + "\"")
  {
  }

  lemma {:induction false} EscapeInjective(s: string, t: string)
    requires Escape(s) + "\"" == Escape(t) + "\""
    ensures s == t
  {
    QuoteEndsText(s);
    QuoteEndsText(t);
    if s != "" && t != "" {
      EscapeHead(s);
      EscapeHead(t);
      EscapeCharPrefixFree(s[0], t[0], Escape(s[1..]) + "\"", Escape(t[1..]) + "\"");
      EscapeInjective(s[1..], t[1..]);
      assert s == [s[0]] + s[1..] && t == [t[0]] + t[1..];
    }
  }

  lemma AbsoluteNumeral(n: int)
    ensures (if n < 0 then Json(Number(n))[1..] else Json(Number(n))) == Numeral(if n < 0 then -n else n, 10)
  {
  }

  lemma NumberInjective(m: int, n: int)
    requires Json(Number(m)) == Json(Number(n))
    ensures m == n
  {
    SignLeads(m);
    SignLeads(n);
    AbsoluteNumeral(m);
    AbsoluteNumeral(n);
    NumeralInjective(if m < 0 then -m else m, if n < 0 then -n else n, 10);
  }

  lemma FirstDigit(n: nat)
    ensures Numeral(n, 10) != "" && '0' <= Numeral(n, 10)[0] <= '9'
  {
    NumeralReadBack(n, 10);
    assert Numeral(n, 10)[0] in Numeral(n, 10);
  }

  lemma SignLeads(n: int)
    ensures Json(Number(n)) != "" && (Json(Number(n))[0] == '-' <==> n < 0)
    ensures n >= 0 ==> '0' <= Json(Number(n))[0] <= '9'
  {
    FirstDigit(if n < 0 then -n else n);
  }

  lemma FirstChar(id: RpcId)
    ensures Json(id) != ""
    ensures id.Text? ==> Json(id)[0] == '"'
    ensures id.Number? ==> Json(id)[0] == '-' || '0' <= Json(id)[0] <= '9'
    ensures id.Null? ==> Json(id)[0] == 'n'
  {
    if id.Number? { SignLeads(id.value); }
  }

  lemma JsonInjective(a: RpcId, b: RpcId)
    requires Json(a) == Json(b)
    ensures a == b
  {
    FirstChar(a);
    FirstChar(b);
    if a.Text? && b.Text? {
      assert Json(a)[1..] == Escape(a.text) + "\"" && Json(b)[1..] == Escape(b.text) + "\"";
      EscapeInjective(a.text, b.text);
    } else if a.Number? && b.Number? {
      NumberInjective(a.value, b.value);
    }
  }

  /** Tokens hold no colon, so one key names one lease and one request id. */
  lemma ActiveCallKeyInjective(s: string, a: RpcId, t: string, b: RpcId)
    requires TokenText(s) && TokenText(t)
    ensures ActiveCallKey(s, a) == ActiveCallKey(t, b) <==> s == t && a == b
  {
    if ActiveCallKey(s, a) == ActiveCallKey(t, b) {
      SplitUnique(s, t, ':', Json(a), Json(b));
      JsonInjective(a, b);
    }
  }
}
