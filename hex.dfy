/**
 * Lower-case hexadecimal encoding of info-hashes, as `hex.EncodeToString`
 * produces it for resume file names and magnet links, together with the
 * decoder that inverts it.
 */
module Hex {
  import opened Wrappers

  newtype Byte = b: int | 0 <= b < 256

  predicate IsLowerHex(c: char) {
    '0' <= c <= '9' || 'a' <= c <= 'f'
  }

  /** The digit for a nibble: '0'..'9', then 'a'..'f'. */
  function Digit(n: int): (c: char)
    requires 0 <= n < 16
  {
    if n < 10 then ('0' as int + n) as char else ('a' as int + n - 10) as char
  }

  /** The nibble a lower-case hex digit stands for. */
  function DigitValue(c: char): (v: Option<int>)
    ensures v.Some? <==> IsLowerHex(c)
    ensures v.Some? ==> 0 <= v.value < 16 && Digit(v.value) == c
  {
    if '0' <= c <= '9' then Some(c as int - '0' as int)
    else if 'a' <= c <= 'f' then Some(c as int - 'a' as int + 10)
    else None
  }

  /** Two digits per byte, high nibble first. */
  function Encode(bytes: seq<Byte>): (s: string)
    ensures |s| == 2 * |bytes|
    ensures forall i :: 0 <= i < |s| ==> IsLowerHex(s[i])
  {
    if bytes == [] then ""
    else [Digit(bytes[0] as int / 16), Digit(bytes[0] as int % 16)] + Encode(bytes[1..])
  }

  /** Reads pairs of lower-case digits back into bytes; None on an odd length or a non-digit. */
  function Decode(s: string): (r: Option<seq<Byte>>)
    ensures r.Some? ==> 2 * |r.value| == |s|
    decreases |s|
  {
    if s == [] then Some([])
    else if |s| == 1 then None
    else match (DigitValue(s[0]), DigitValue(s[1]), Decode(s[2..]))
      case (Some(hi), Some(lo), Some(rest)) => Some([(hi * 16 + lo) as Byte] + rest)
      case _ => None
  }

  lemma DigitRoundTrip(n: int)
    requires 0 <= n < 16
    ensures DigitValue(Digit(n)) == Some(n)
  {
  }

  /** Decoding an encoded info-hash gives the info-hash back. */
  lemma {:induction false} DecodeEncode(bytes: seq<Byte>)
    ensures Decode(Encode(bytes)) == Some(bytes)
  {
    if bytes != [] {
      var b := bytes[0] as int;
      var s := Encode(bytes);
      DigitRoundTrip(b / 16);
      DigitRoundTrip(b % 16);
      assert s[2..] == Encode(bytes[1..]);
      DecodeEncode(bytes[1..]);
      assert [(b / 16 * 16 + b % 16) as Byte] + bytes[1..] == bytes;
    }
  }

  /** Encoding is injective: two info-hashes with the same hex string are equal. */
  lemma EncodeInjective(a: seq<Byte>, b: seq<Byte>)
    requires Encode(a) == Encode(b)
    ensures a == b
  {
    DecodeEncode(a);
    DecodeEncode(b);
  }
}
