/** Positional numerals: JSON numbers, content lengths and base-36 request ids. */
module Numerals {
  function Digit(d: nat): char
    requires d < 36
  {
    if d < 10 then '0' + d as char else 'a' + (d - 10) as char
  }

  function DigitValue(c: char): nat {
    if '0' <= c <= '9' then c as nat - '0' as nat else if 'a' <= c <= 'z' then c as nat - 'a' as nat + 10 else 0
  }

  /** Decimal numbers and the base-36 parts of request ids. */
  predicate IsBase(base: nat) { base == 10 || base == 36 }

  function Numeral(n: nat, base: nat): string
    requires IsBase(base)
    decreases n
  {
    if n < base then [Digit(n)] else Numeral(n / base, base) + [Digit(n % base)]
  }

  function NumberOf(s: string, base: nat): nat {
    if s == "" then 0 else NumberOf(s[..|s| - 1], base) * base + DigitValue(s[|s| - 1])
  }

  predicate AllDigits(s: string, base: nat) {
    forall c <- s :: ('0' <= c <= '9' || 'a' <= c <= 'z') && DigitValue(c) < base
  }

  lemma DigitReadBack(d: nat)
    requires d < 36
    ensures DigitValue(Digit(d)) == d && AllDigits([Digit(d)], d + 1)
  {
  }

  lemma AppendDigit(s: string, d: nat, base: nat)
    requires d < base <= 36 && AllDigits(s, base)
    ensures NumberOf(s + [Digit(d)], base) == NumberOf(s, base) * base + d && AllDigits(s + [Digit(d)], base)
  {
    var t := s + [Digit(d)];
    assert t[..|t| - 1] == s;
    DigitReadBack(d);
  }

  lemma QuotientAndRest(n: nat, base: nat)
    requires IsBase(base) && n >= base
    ensures n / base < n && n % base < base && n / base * base + n % base == n
  {
    if base == 10 {
      assert n / 10 * 10 + n % 10 == n;
    } else {
      assert n / 36 * 36 + n % 36 == n;
    }
  }

  lemma NumeralGrows(n: nat, base: nat, q: nat, d: nat)
    requires IsBase(base) && n >= base && q == n / base && d == n % base && d < base && q < n
    requires NumberOf(Numeral(q, base), base) == q && AllDigits(Numeral(q, base), base)
    ensures NumberOf(Numeral(n, base), base) == q * base + d
    ensures Numeral(n, base) != "" && AllDigits(Numeral(n, base), base)
  {
    var s := Numeral(q, base);
    assert Numeral(n, base) == s + [Digit(d)];
    AppendDigit(s, d, base);
  }

  /** A numeral reads back to its number, so numerals of different numbers differ. */
  lemma {:induction false} NumeralReadBack(n: nat, base: nat)
    requires IsBase(base)
    ensures NumberOf(Numeral(n, base), base) == n && Numeral(n, base) != "" && AllDigits(Numeral(n, base), base)
    decreases n
  {
    if n < base {
      AppendDigit("", n, base);
      assert "" + [Digit(n)] == [Digit(n)];
    } else {
      QuotientAndRest(n, base);
      NumeralReadBack(n / base, base);
      NumeralGrows(n, base, n / base, n % base);
    }
  }

  lemma NumeralInjective(m: nat, n: nat, base: nat)
    requires IsBase(base)
    ensures Numeral(m, base) == Numeral(n, base) <==> m == n
  {
    NumeralReadBack(m, base);
    NumeralReadBack(n, base);
  }
}
