/** UTF-8 as `str.encode("utf-8")` writes it; `char` is a Unicode scalar value. */
module Utf8 {
  import opened Prelude

  type byte = x: int | 0 <= x < 256

  function EncodeChar(c: char): (r: seq<byte>)
    ensures 1 <= |r| <= 4
  {
    var n := c as int;
    if n < 0x80 then [n]
    else if n < 0x800 then [0xC0 + n / 64, 0x80 + n % 64]
    else if n < 0x10000 then [0xE0 + n / 4096, 0x80 + n / 64 % 64, 0x80 + n % 64]
    else [0xF0 + n / 262144, 0x80 + n / 4096 % 64, 0x80 + n / 64 % 64, 0x80 + n % 64]
  }

  function Encode(s: string): seq<byte> {
    if s == "" then [] else EncodeChar(s[0]) + Encode(s[1..])
  }

  function Low(b: byte): int {
    b as int - 0x80
  }

  /** The scalar value whose encoding starts `bytes`, and the number of bytes it takes. */
  function DecodePrefix(bytes: seq<byte>): Option<(int, nat)> {
    if |bytes| >= 1 && bytes[0] < 0x80 then
      Some((bytes[0], 1))
    else if |bytes| >= 2 && 0xC0 <= bytes[0] < 0xE0 then
      Some(((bytes[0] as int - 0xC0) * 64 + Low(bytes[1]), 2))
    else if |bytes| >= 3 && 0xE0 <= bytes[0] < 0xF0 then
      Some(((bytes[0] as int - 0xE0) * 4096 + Low(bytes[1]) * 64 + Low(bytes[2]), 3))
    else if |bytes| >= 4 && 0xF0 <= bytes[0] then
      Some(((bytes[0] as int - 0xF0) * 262144 + Low(bytes[1]) * 4096 + Low(bytes[2]) * 64 + Low(bytes[3]), 4))
    else None
  }

  lemma DecodeEncodedChar(c: char, rest: seq<byte>)
    ensures DecodePrefix(EncodeChar(c) + rest) == Some((c as int, |EncodeChar(c)|))
  {
    var n := c as int;
    var e := EncodeChar(c);
    assert forall i :: 0 <= i < |e| ==> (e + rest)[i] == e[i];
    assert n == n / 64 * 64 + n % 64;
    if n >= 0x800 {
      assert n / 64 == n / 4096 * 64 + n / 64 % 64;
      if n >= 0x10000 {
        assert n / 4096 == n / 262144 * 64 + n / 4096 % 64;
      }
    }
  }

  /** Two strings with the same bytes are the same string. */
  lemma {:induction false} EncodeInjective(a: string, b: string)
    requires Encode(a) == Encode(b)
    ensures a == b
    decreases |a| + |b|
  {
    if a != "" && b != "" {
      DecodeEncodedChar(a[0], Encode(a[1..]));
      DecodeEncodedChar(b[0], Encode(b[1..]));
      assert a[0] as int == b[0] as int;
      assert a[0] == b[0];
      assert Encode(a[1..]) == Encode(a)[|EncodeChar(a[0])|..];
      assert Encode(b[1..]) == Encode(b)[|EncodeChar(b[0])|..];
      EncodeInjective(a[1..], b[1..]);
      assert a == [a[0]] + a[1..] && b == [b[0]] + b[1..];
    }
  }
}
