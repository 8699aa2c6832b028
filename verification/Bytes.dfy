/** Bytes, and ASCII text as bytes. */
module Bytes {
  newtype Byte = x: int | 0 <= x < 256

  predicate IsAscii(s: string) { forall i | 0 <= i < |s| :: s[i] < '\U{0080}' }

  function Ascii(s: string): (bytes: seq<Byte>)
    requires IsAscii(s)
    ensures |bytes| == |s| && forall i | 0 <= i < |s| :: bytes[i] as int == s[i] as int
  {
    seq(|s|, i requires 0 <= i < |s| => s[i] as int as Byte)
  }
}
