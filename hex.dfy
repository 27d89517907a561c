/**
 * Lowercase hexadecimal encoding of a byte string, as produced by
 * `Buffer.toString('hex')` for the random bytes of a room id.
 */
module Hex {
  import opened Wrappers

  type Byte = b: int | 0 <= b < 256

  /** The sixteen characters of the lowercase hex alphabet. */
  predicate IsHexDigit(c: char) {
    ('0' <= c <= '9') || ('a' <= c <= 'f')
  }

  predicate IsHexString(s: string) {
    forall i :: 0 <= i < |s| ==> IsHexDigit(s[i])
  }

  function Digit(n: nat): (c: char)
    requires n < 16
    ensures IsHexDigit(c)
  {
    if n < 10 then ('0' as int + n) as char else ('a' as int + (n - 10)) as char
  }

  function DigitValue(c: char): (n: nat)
    requires IsHexDigit(c)
    ensures n < 16
  {
    if c <= '9' then c as int - '0' as int else c as int - 'a' as int + 10
  }

  lemma DigitRoundTrip(n: nat)
    requires n < 16
    ensures DigitValue(Digit(n)) == n
  {
  }

  lemma DigitValueRoundTrip(c: char)
    requires IsHexDigit(c)
    ensures Digit(DigitValue(c)) == c
  {
  }

  /** Each byte becomes two characters, high nibble first. */
  function Encode(bs: seq<Byte>): (s: string)
    ensures |s| == 2 * |bs|
    ensures IsHexString(s)
  {
    if bs == [] then []
    else [Digit(bs[0] / 16), Digit(bs[0] % 16)] + Encode(bs[1..])
  }

  /** The inverse of Encode: accepts exactly the even-length lowercase hex strings. */
  function Decode(s: string): (r: Option<seq<Byte>>)
    ensures r.Some? ==> 2 * |r.value| == |s|
  {
    if s == [] then Some([])
    else if |s| < 2 || !IsHexDigit(s[0]) || !IsHexDigit(s[1]) then None
    else
      match Decode(s[2..])
      case None => None
      case Some(rest) => Some([DigitValue(s[0]) * 16 + DigitValue(s[1])] + rest)
  }

  lemma {:induction false} DecodeEncode(bs: seq<Byte>)
    ensures Decode(Encode(bs)) == Some(bs)
  {
    if bs != [] {
      var s := Encode(bs);
      assert s[2..] == Encode(bs[1..]);
      DecodeEncode(bs[1..]);
      DigitRoundTrip(bs[0] / 16);
      DigitRoundTrip(bs[0] % 16);
      assert [bs[0]] + bs[1..] == bs;
    }
  }

  lemma NibbleSplit(hi: nat, lo: nat)
    requires hi < 16 && lo < 16
    ensures (hi * 16 + lo) / 16 == hi && (hi * 16 + lo) % 16 == lo
  {
  }

  lemma {:induction false} EncodeDecode(s: string, bs: seq<Byte>)
    requires Decode(s) == Some(bs)
    ensures Encode(bs) == s
  {
    if s != [] {
      var rest := Decode(s[2..]).value;
      var hi, lo := DigitValue(s[0]), DigitValue(s[1]);
      assert bs == [hi * 16 + lo] + rest;
      EncodeDecode(s[2..], rest);
      NibbleSplit(hi, lo);
      DigitValueRoundTrip(s[0]);
      DigitValueRoundTrip(s[1]);
      assert bs[1..] == rest;
      assert Encode(bs) == [Digit(bs[0] / 16), Digit(bs[0] % 16)] + Encode(rest);
      assert s == [s[0], s[1]] + s[2..];
    }
  }

  /** Distinct byte strings give distinct ids. */
  lemma EncodeInjective(a: seq<Byte>, b: seq<Byte>)
    requires Encode(a) == Encode(b)
    ensures a == b
  {
    DecodeEncode(a);
    DecodeEncode(b);
  }

  /** A hex string never contains a path separator. */
  lemma HexHasNoSlash(s: string)
    requires IsHexString(s)
    ensures '/' !in s
  {
  }
}
