/** Unpadded base64url, section 5 of RFC 4648. */
module Base64Url {
  import opened Prelude
  import opened Utf8

  type sextet = x: int | 0 <= x < 64

  /** The character of a six-bit value. */
  function Letter(n: sextet): char {
    if n < 26 then ('A' as int + n) as char
    else if n < 52 then ('a' as int + (n - 26)) as char
    else if n < 62 then ('0' as int + (n - 52)) as char
    else if n == 62 then '-'
    else '_'
  }

  function Sextet(c: char): Option<sextet> {
    if 'A' <= c <= 'Z' then Some(c as int - 'A' as int)
    else if 'a' <= c <= 'z' then Some(c as int - 'a' as int + 26)
    else if '0' <= c <= '9' then Some(c as int - '0' as int + 52)
    else if c == '-' then Some(62)
    else if c == '_' then Some(63)
    else None
  }

  /** `urlsafe_b64encode(bytes).rstrip("=")` */
  function Encode64(b: seq<byte>): (s: string)
    ensures |s| == (4 * |b| + 2) / 3
  {
    if b == [] then ""
    else if |b| == 1 then [Letter(b[0] / 4), Letter(b[0] % 4 * 16)]
    else if |b| == 2 then [Letter(b[0] / 4), Letter(b[0] % 4 * 16 + b[1] / 16), Letter(b[1] % 16 * 4)]
    else
      [Letter(b[0] / 4), Letter(b[0] % 4 * 16 + b[1] / 16), Letter(b[1] % 16 * 4 + b[2] / 64), Letter(b[2] % 64)]
      + Encode64(b[3..])
  }

  /** The bytes of one to three characters left at the end; one alone is refused. */
  function DecodeTail(v: seq<sextet>): Option<seq<byte>>
    requires |v| <= 3
  {
    if |v| == 0 then Some([])
    else if |v| == 1 then None
    else if |v| == 2 then Some([v[0] as int * 4 + v[1] as int / 16])
    else Some([v[0] as int * 4 + v[1] as int / 16, v[1] as int % 16 * 16 + v[2] as int / 4])
  }

  function Sextets(s: string): (r: Option<seq<sextet>>)
    ensures r.Some? ==> |r.value| == |s|
  {
    if s == "" then Some([])
    else
      match (Sextet(s[0]), Sextets(s[1..]))
      case (Some(v), Some(vs)) => Some([v] + vs)
      case _ => None
  }

  /** `urlsafe_b64decode` of the value with its padding put back. */
  function Decode64(s: string): Option<seq<byte>> {
    if |s| < 4 then
      match Sextets(s) case None => None case Some(v) => DecodeTail(v)
    else
      match (Sextet(s[0]), Sextet(s[1]), Sextet(s[2]), Sextet(s[3]), Decode64(s[4..]))
      case (Some(a), Some(b), Some(c), Some(d), Some(rest)) =>
        Some([a as int * 4 + b as int / 16, b as int % 16 * 16 + c as int / 4, c as int % 4 * 64 + d as int] + rest)
      case _ => None
  }

  /** No other character stands for a value. */
  lemma SextetLetter(c: char)
    ensures Sextet(c).Some? ==> Letter(Sextet(c).value) == c
  {
  }

  lemma LetterSextet(n: sextet)
    ensures Sextet(Letter(n)) == Some(n)
  {
  }

  lemma Quantum(x: byte, y: byte, z: byte)
    ensures x / 4 * 4 + (x % 4 * 16 + y / 16) / 16 == x
    ensures (x % 4 * 16 + y / 16) % 16 * 16 + (y % 16 * 4 + z / 64) / 4 == y
    ensures (y % 16 * 4 + z / 64) % 4 * 64 + z % 64 == z
    ensures x / 4 * 4 + x % 4 * 16 / 16 == x
    ensures (x % 4 * 16 + y / 16) % 16 * 16 + y % 16 * 4 / 4 == y
  {
  }

  lemma DecodeTwo(c: char, d: char, v: sextet, w: sextet)
    requires Sextet(c) == Some(v) && Sextet(d) == Some(w)
    ensures Decode64([c, d]) == Some([v as int * 4 + w as int / 16])
  {
    hide Sextet, Sextets;
    TwoSextets(c, d);
  }

  lemma DecodeThree(c: char, d: char, e: char, v: sextet, w: sextet, x: sextet)
    requires Sextet(c) == Some(v) && Sextet(d) == Some(w) && Sextet(e) == Some(x)
    ensures Decode64([c, d, e]) == Some([v as int * 4 + w as int / 16, w as int % 16 * 16 + x as int / 4])
  {
    hide Sextet, Sextets;
    ThreeSextets(c, d, e);
  }

  lemma OneByte(x: byte)
    ensures Decode64(Encode64([x])) == Some([x])
  {
    hide Letter, Sextet, Decode64;
    var v, w := x / 4, x % 4 * 16;
    LetterSextet(v);
    LetterSextet(w);
    DecodeTwo(Letter(v), Letter(w), v, w);
    Quantum(x, 0, 0);
  }

  lemma TwoBytes(x: byte, y: byte)
    ensures Decode64(Encode64([x, y])) == Some([x, y])
  {
    hide Letter, Sextet, Decode64;
    var v, w, u := x / 4, x % 4 * 16 + y / 16, y % 16 * 4;
    LetterSextet(v);
    LetterSextet(w);
    LetterSextet(u);
    DecodeThree(Letter(v), Letter(w), Letter(u), v, w, u);
    Quantum(x, y, 0);
  }

  /** Decoding what was encoded gives the bytes back. */
  lemma {:induction false} DecodeEncoded(b: seq<byte>)
    ensures Decode64(Encode64(b)) == Some(b)
  {
    hide Letter, Sextet, Sextets, DecodeTail;
    if |b| == 1 {
      assert b == [b[0]];
      OneByte(b[0]);
    } else if |b| == 2 {
      assert b == [b[0], b[1]];
      TwoBytes(b[0], b[1]);
    } else if b != [] {
      LetterSextet(b[0] / 4);
      LetterSextet(b[0] % 4 * 16 + b[1] / 16);
      LetterSextet(b[1] % 16 * 4 + b[2] / 64);
      LetterSextet(b[2] % 64);
      Quantum(b[0], b[1], b[2]);
      DecodeEncoded(b[3..]);
      assert Encode64(b)[4..] == Encode64(b[3..]);
      assert b == [b[0], b[1], b[2]] + b[3..];
    } else {
      Nothing();
    }
  }

  lemma Nothing()
    ensures Decode64(Encode64([])) == Some([])
  {
  }

  lemma OneSextet(c: char)
    requires Sextet(c).Some?
    ensures Sextets([c]) == Some([Sextet(c).value])
  {
    hide Sextet;
    assert [c][1..] == "" && Sextets("") == Some([]);
    assert [Sextet(c).value] + [] == [Sextet(c).value];
  }

  lemma TwoSextets(c: char, d: char)
    requires Sextet(c).Some? && Sextet(d).Some?
    ensures Sextets([c, d]) == Some([Sextet(c).value, Sextet(d).value])
  {
    hide Sextet;
    assert [c, d][1..] == [d];
    OneSextet(d);
    assert [Sextet(c).value] + [Sextet(d).value] == [Sextet(c).value, Sextet(d).value];
  }

  lemma ThreeSextets(c: char, d: char, e: char)
    requires Sextet(c).Some? && Sextet(d).Some? && Sextet(e).Some?
    ensures Sextets([c, d, e]) == Some([Sextet(c).value, Sextet(d).value, Sextet(e).value])
  {
    hide Sextet;
    assert [c, d, e][1..] == [d, e];
    TwoSextets(d, e);
    assert [Sextet(c).value] + [Sextet(d).value, Sextet(e).value] ==
        [Sextet(c).value, Sextet(d).value, Sextet(e).value];
  }
}
