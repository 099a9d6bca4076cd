/**
 * Base16 text as written by Node's `buf.toString("hex")`: two lowercase
 * hexadecimal digits per byte, high nibble first (the alphabet of
 * section 8 of RFC 4648, in lower case).
 */
module Hex {
  import opened Wrappers

  type Byte = x: int | 0 <= x < 256

  /** A character of the alphabet `0123456789abcdef`. */
  predicate IsLowerHex(c: char) {
    ('0' <= c <= '9') || ('a' <= c <= 'f')
  }

  function DigitChar(n: int): (c: char)
    requires 0 <= n < 16
    ensures IsLowerHex(c)
  {
    if n < 10 then '0' + n as char else 'a' + (n - 10) as char
  }

  function DigitValue(c: char): Option<int> {
    if '0' <= c <= '9' then Some(c as int - '0' as int)
    else if 'a' <= c <= 'f' then Some(c as int - 'a' as int + 10)
    else None
  }

  lemma DigitValueOfChar(n: int)
    requires 0 <= n < 16
    ensures DigitValue(DigitChar(n)) == Some(n)
  {
  }

  /** `Buffer.from(bytes).toString("hex")`. */
  function Encode(bytes: seq<Byte>): (s: string)
    ensures |s| == 2 * |bytes|
    ensures forall i :: 0 <= i < |s| ==> IsLowerHex(s[i])
  {
    if bytes == [] then ""
    else [DigitChar(bytes[0] / 16), DigitChar(bytes[0] % 16)] + Encode(bytes[1..])
  }

  /** The inverse of `Encode`: `None` on odd length or a character outside `[0-9a-f]`. */
  function Decode(s: string): Option<seq<Byte>> {
    if s == [] then Some([])
    else if |s| == 1 then None
    else
      var hi, lo, rest := DigitValue(s[0]), DigitValue(s[1]), Decode(s[2..]);
      if hi.None? || lo.None? || rest.None? then None
      else Some([hi.value * 16 + lo.value] + rest.value)
  }

  /** Decoding the encoding of any byte string gives that byte string back. */
  lemma {:induction false} DecodeEncode(bytes: seq<Byte>)
    ensures Decode(Encode(bytes)) == Some(bytes)
  {
    if bytes != [] {
      var b := bytes[0];
      DigitValueOfChar(b / 16);
      DigitValueOfChar(b % 16);
      DecodeEncode(bytes[1..]);
      var s := Encode(bytes);
      assert s[0] == DigitChar(b / 16) && s[1] == DigitChar(b % 16);
      assert s[2..] == Encode(bytes[1..]);
      Nibbles(b);
      assert [b] + bytes[1..] == bytes;
    }
  }

  lemma Nibbles(b: Byte)
    ensures 0 <= b / 16 < 16 && 0 <= b % 16 < 16 && b / 16 * 16 + b % 16 == b
  {
  }

  /** Two byte strings with the same encoding are equal: the hex text loses nothing. */
  lemma EncodeInjective(a: seq<Byte>, b: seq<Byte>)
    requires Encode(a) == Encode(b)
    ensures a == b
  {
    DecodeEncode(a);
    DecodeEncode(b);
  }
}
