/** Content versions (src-tauri/src/fs_ops.rs): the 64-bit FNV-1a hash of section 2 of
    draft-eastlake-fnv and the length, as text. */
module ContentVersion {
  import opened Bytes
  import opened Numerals

  const WORD: nat := 0x1_0000_0000_0000_0000
  const OFFSET: nat := 0xcbf29ce484222325
  const PRIME: nat := 0x100000001b3

  /** Inverse of the prime modulo 2^64: PRIME * INVERSE == 1 + CARRY * WORD. */
  const INVERSE: nat := 0xce965057aff6957b
  const CARRY: nat := 0xce9650590f

  /** Bitwise exclusive or. */
  function Xor(m: nat, n: nat): nat
    decreases m + n
  {
    if m == 0 && n == 0 then 0 else 2 * Xor(m / 2, n / 2) + (if m % 2 == n % 2 then 0 else 1)
  }

  function FnvStep(h: nat, b: Byte): nat { Xor(h, b as nat) * PRIME % WORD }

  function Fnv(content: seq<Byte>): nat {
    if content == [] then OFFSET else FnvStep(Fnv(content[..|content| - 1]), content[|content| - 1])
  }

  function Hex(n: nat, digits: nat): string {
    if digits == 0 then "" else Hex(n / 16, digits - 1) + [Digit(n % 16)]
  }

  function Version(content: seq<Byte>): string {
    "fnv1a64:" + Hex(Fnv(content), 16) + ":" + Numeral(|content|, 10)
  }

  method ComputeVersion(content: seq<Byte>) returns (version: string)
    ensures version == Version(content)
  {
    var hash := OFFSET;
    for i := 0 to |content|
      invariant hash == Fnv(content[..i])
    {
      hash := Xor(hash, content[i] as nat);
      hash := hash * PRIME % WORD;
      assert content[..i + 1][..i] == content[..i];
    }
    assert content[..|content|] == content;
    version := "fnv1a64:" + Hex(hash, 16) + ":" + Numeral(|content|, 10);
  }

  // -------------------------------------------------------- one step is a bijection

  lemma MultiplicationInjective(a: nat, b: nat)
    requires a < WORD && b < WORD && a * PRIME % WORD == b * PRIME % WORD
    ensures a == b
  {
    var d: int := a - b;
    var j: int := a * PRIME / WORD - b * PRIME / WORD;
    assert d * PRIME == j * WORD;
    assert PRIME * INVERSE == 1 + CARRY * WORD;
    var t: int := j * INVERSE - d * CARRY;
    assert d == t * WORD;
  }

  function Power2(k: nat): (r: nat)
    ensures r > 0
  {
    if k == 0 then 1 else 2 * Power2(k - 1)
  }

  lemma {:induction false} XorInjective(m: nat, n: nat, x: nat, y: nat)
    ensures Xor(m, x) == Xor(n, x) <==> m == n
    ensures Xor(m, x) == Xor(m, y) <==> x == y
    decreases m + n + x + y
  {
    if m + n + x + y > 0 {
      XorInjective(m / 2, n / 2, x / 2, y / 2);
    }
  }

  lemma {:induction false} XorStaysBelow(m: nat, x: nat, bits: nat)
    requires m < Power2(bits) && x < Power2(bits)
    ensures Xor(m, x) < Power2(bits)
    decreases bits
  {
    if m + x > 0 {
      XorStaysBelow(m / 2, x / 2, bits - 1);
    }
  }

  function Power16(k: nat): nat { if k == 0 then 1 else 16 * Power16(k - 1) }

  lemma {:induction false} FourBitsADigit(k: nat)
    ensures Power2(4 * k) == Power16(k)
  {
    if k > 0 {
      FourBitsADigit(k - 1);
      assert Power2(4 * k) == 2 * Power2(4 * k - 1) == 4 * Power2(4 * k - 2) == 8 * Power2(4 * k - 3);
    }
  }

  lemma SixteenDigits()
    ensures Power16(16) == WORD
  {
    assert Power16(8) == 0x1_0000_0000;
  }

  lemma SixtyFourBits()
    ensures Power2(64) == WORD
  {
    FourBitsADigit(16);
    SixteenDigits();
  }

  /** A step forgets neither the state nor the byte. */
  lemma StepInjective(h: nat, k: nat, b: Byte, c: Byte)
    requires h < WORD && k < WORD
    ensures FnvStep(h, b) == FnvStep(k, b) <==> h == k
    ensures FnvStep(h, b) == FnvStep(h, c) <==> b == c
  {
    SixtyFourBits();
    XorInjective(h, k, b as nat, c as nat);
    XorStaysBelow(h, b as nat, 64);
    XorStaysBelow(k, b as nat, 64);
    XorStaysBelow(h, c as nat, 64);
    var x, y, z := Xor(h, b as nat), Xor(k, b as nat), Xor(h, c as nat);
    if FnvStep(h, b) == FnvStep(k, b) { MultiplicationInjective(x, y); }
    if FnvStep(h, b) == FnvStep(h, c) { MultiplicationInjective(x, z); }
  }

  lemma {:induction false} FnvIsAWord(content: seq<Byte>)
    ensures Fnv(content) < WORD
  {
  }

  /** Contents with the same ending hash alike exactly if what comes before does. */
  lemma {:induction false} CommonEnding(a: seq<Byte>, b: seq<Byte>, ending: seq<Byte>)
    ensures Fnv(a + ending) == Fnv(b + ending) <==> Fnv(a) == Fnv(b)
  {
    if ending == [] {
      assert a + ending == a && b + ending == b;
    } else {
      var n := |ending| - 1;
      CommonEnding(a, b, ending[..n]);
      assert (a + ending)[..|a + ending| - 1] == a + ending[..n] && (b + ending)[..|b + ending| - 1] == b + ending[..n];
      FnvIsAWord(a + ending[..n]);
      FnvIsAWord(b + ending[..n]);
      StepInjective(Fnv(a + ending[..n]), Fnv(b + ending[..n]), ending[n], ending[n]);
    }
  }

  /** Same length, and one byte at one position is different. */
  predicate DifferInOneByte(a: seq<Byte>, b: seq<Byte>, i: nat) {
    i < |a| && |a| == |b| && a[i] != b[i] && a[..i] == b[..i] && a[i + 1..] == b[i + 1..]
  }

  lemma OneByteChangesHash(a: seq<Byte>, b: seq<Byte>, i: nat)
    requires DifferInOneByte(a, b, i)
    ensures Fnv(a) != Fnv(b)
  {
    var x, y := a[..i + 1], b[..i + 1];
    assert x[..i] == a[..i] == b[..i] == y[..i];
    FnvIsAWord(a[..i]);
    StepInjective(Fnv(a[..i]), Fnv(a[..i]), a[i], b[i]);
    CommonEnding(x, y, a[i + 1..]);
    assert a == x + a[i + 1..] && b == y + b[i + 1..];
  }

  // ------------------------------------------------------------ versions as text

  lemma {:induction false} HexInjective(m: nat, n: nat, digits: nat)
    requires m < Power16(digits) && n < Power16(digits)
    ensures |Hex(m, digits)| == digits == |Hex(n, digits)|
    ensures Hex(m, digits) == Hex(n, digits) <==> m == n
  {
    if digits > 0 {
      HexInjective(m / 16, n / 16, digits - 1);
      var s, t := Hex(m, digits), Hex(n, digits);
      assert s[..digits - 1] == Hex(m / 16, digits - 1) && t[..digits - 1] == Hex(n / 16, digits - 1);
      assert s[digits - 1] == Digit(m % 16) && t[digits - 1] == Digit(n % 16);
      DigitReadBack(m % 16);
      DigitReadBack(n % 16);
    }
  }

  lemma VersionParts(content: seq<Byte>)
    ensures |Hex(Fnv(content), 16)| == 16
    ensures Version(content)[8..24] == Hex(Fnv(content), 16) && Version(content)[25..] == Numeral(|content|, 10)
  {
    FnvIsAWord(content);
    SixteenDigits();
    HexInjective(Fnv(content), Fnv(content), 16);
  }

  /** Two contents share a version exactly if they share length and hash. */
  lemma SameVersionIff(a: seq<Byte>, b: seq<Byte>)
    ensures Version(a) == Version(b) <==> |a| == |b| && Fnv(a) == Fnv(b)
  {
    FnvIsAWord(a);
    FnvIsAWord(b);
    SixteenDigits();
    HexInjective(Fnv(a), Fnv(b), 16);
    NumeralInjective(|a|, |b|, 10);
    VersionParts(a);
    VersionParts(b);
  }

  /** A change of length, or of exactly one byte, always changes the version. */
  lemma EditChangesVersion(a: seq<Byte>, b: seq<Byte>)
    requires |a| != |b| || exists i :: DifferInOneByte(a, b, i)
    ensures Version(a) != Version(b)
  {
    SameVersionIff(a, b);
    if |a| == |b| {
      var i :| DifferInOneByte(a, b, i);
      OneByteChangesHash(a, b, i);
    }
  }

  // -------------------------------------------------------------- the hash as defined

  /** Bit `k` of a number. */
  predicate Bit(n: nat, k: nat) { if k == 0 then n % 2 == 1 else Bit(n / 2, k - 1) }

  /** Bit for bit, exclusive or. */
  lemma {:induction false} XorBitwise(m: nat, n: nat, k: nat)
    ensures Bit(Xor(m, n), k) <==> Bit(m, k) != Bit(n, k)
    decreases k
  {
    if m == 0 && n == 0 {
      ZeroBits(k);
    } else {
      var x := Xor(m / 2, n / 2);
      assert Xor(m, n) % 2 == (if m % 2 == n % 2 then 0 else 1) && Xor(m, n) / 2 == x;
      if k > 0 { XorBitwise(m / 2, n / 2, k - 1); }
    }
  }

  lemma {:induction false} ZeroBits(k: nat)
    ensures !Bit(0, k)
  {
    if k > 0 { ZeroBits(k - 1); }
  }

  /** The hash starts from the offset basis and takes in one byte after the other. */
  lemma HashOf(content: seq<Byte>, b: Byte)
    ensures Fnv([]) == 14695981039346656037
    ensures Fnv(content + [b]) == Xor(Fnv(content), b as nat) * 1099511628211 % 18446744073709551616
  {
    assert (content + [b])[..|content + [b]| - 1] == content;
  }

  function Sixteens(digits: nat): nat { if digits == 0 then 1 else 16 * Sixteens(digits - 1) }

  /** The digits of the version are the hash in base sixteen, highest first. */
  lemma {:induction false} HexReadsBack(n: nat, digits: nat)
    requires n < Sixteens(digits)
    ensures |Hex(n, digits)| == digits && NumberOf(Hex(n, digits), 16) == n && AllDigits(Hex(n, digits), 16)
  {
    if digits > 0 {
      HexReadsBack(n / 16, digits - 1);
      AppendDigit(Hex(n / 16, digits - 1), n % 16, 16);
    }
  }
}
