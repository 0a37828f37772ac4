/**
 * Bytes and the hexadecimal text encoding of Node's Buffer:
 * `buf.toString('hex')` writes two lower-case digits per byte, and
 * `Buffer.from(text, 'hex')` reads digit pairs (either case) and stops at
 * the first pair that is not two hexadecimal digits, dropping an odd
 * trailing character.
 */
module Hex {
  import opened Wrappers

  newtype byte = x: int | 0 <= x < 256

  type Bytes = seq<byte>

  const DIGITS: string := "0123456789abcdef"

  predicate IsLowerHexDigit(c: char) {
    ('0' <= c <= '9') || ('a' <= c <= 'f')
  }

  /** The value of one hexadecimal digit, of either case. */
  function DigitValue(c: char): (r: Option<int>)
    ensures r.Some? ==> 0 <= r.value < 16
    ensures IsLowerHexDigit(c) ==> r.Some? && DIGITS[r.value] == c
  {
    if '0' <= c <= '9' then Some(c as int - '0' as int)
    else if 'a' <= c <= 'f' then Some(c as int - 'a' as int + 10)
    else if 'A' <= c <= 'F' then Some(c as int - 'A' as int + 10)
    else None
  }

  /** `buf.toString('hex')`. */
  function Encode(b: Bytes): (s: string)
    ensures |s| == 2 * |b|
    ensures forall i :: 0 <= i < |s| ==> IsLowerHexDigit(s[i])
  {
    if b == [] then ""
    else [DIGITS[b[0] as int / 16], DIGITS[b[0] as int % 16]] + Encode(b[1..])
  }

  /** `Buffer.from(s, 'hex')`: decodes the longest prefix of valid digit pairs. */
  function Decode(s: string): (b: Bytes)
    ensures |b| <= |s| / 2
  {
    if |s| < 2 then []
    else match (DigitValue(s[0]), DigitValue(s[1]))
      case (Some(hi), Some(lo)) => [(hi * 16 + lo) as byte] + Decode(s[2..])
      case _ => []
  }

  /** Every digit of the alphabet reads back as its position. */
  lemma DigitRoundTrip(d: int)
    requires 0 <= d < 16
    ensures DigitValue(DIGITS[d]) == Some(d)
  {
    assert DIGITS[d] == if d < 10 then ('0' as int + d) as char else ('a' as int + d - 10) as char;
  }

  /** Decoding the encoding of any bytes gives those bytes back. */
  lemma {:induction false} DecodeEncode(b: Bytes)
    ensures Decode(Encode(b)) == b
  {
    if b != [] {
      var s := Encode(b);
      var hi, lo := b[0] as int / 16, b[0] as int % 16;
      assert s[0] == DIGITS[hi] && s[1] == DIGITS[lo];
      DigitRoundTrip(hi);
      DigitRoundTrip(lo);
      assert s[2..] == Encode(b[1..]);
      DecodeEncode(b[1..]);
    }
  }

  /** Encoding is injective: distinct byte strings have distinct hex texts. */
  lemma EncodeInjective(a: Bytes, b: Bytes)
    requires Encode(a) == Encode(b)
    ensures a == b
  {
    DecodeEncode(a);
    DecodeEncode(b);
  }
}
