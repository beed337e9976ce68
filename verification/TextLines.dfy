/** Python's view of lines and words: white space, stripping, splitting and joining. */
module TextLines {

  /** `str.isspace` of one character. */
  predicate IsSpace(c: char) {
    var n := c as int;
    || 9 <= n <= 13 || 28 <= n <= 32 || n == 133 || n == 160 || n == 5760
    || 8192 <= n <= 8202 || n == 8232 || n == 8233 || n == 8239 || n == 8287 || n == 12288
  }

  /** The 29 code points Python counts as white space, one by one. */
  lemma SpaceMeaning(c: char)
    ensures IsSpace(c) <==> c as int in {
      0x9, 0xA, 0xB, 0xC, 0xD, 0x1C, 0x1D, 0x1E, 0x1F, 0x20, 0x85, 0xA0, 0x1680, 0x2000, 0x2001, 0x2002, 0x2003, 0x2004,
      0x2005, 0x2006, 0x2007, 0x2008, 0x2009, 0x200A, 0x2028, 0x2029, 0x202F, 0x205F, 0x3000}
  {
  }

  const LF: char := '\n'

  function LStrip(s: string): string {
    if s != "" && IsSpace(s[0]) then LStrip(s[1..]) else s
  }

  function RStrip(s: string): string {
    if s != "" && IsSpace(s[|s| - 1]) then RStrip(s[..|s| - 1]) else s
  }

  function Strip(s: string): string {
    RStrip(LStrip(s))
  }

  predicate StartsWith(s: string, prefix: string) {
    prefix <= s
  }

  predicate IsDigit(c: char) {
    '0' <= c <= '9'
  }

  /** The length of the run of digits at the start of `s`. */
  function DigitRun(s: string): (n: nat)
    ensures n <= |s| && forall i :: 0 <= i < n ==> IsDigit(s[i])
  {
    if s == "" || !IsDigit(s[0]) then 0 else 1 + DigitRun(s[1..])
  }

  /** Up to `most` digits, a full stop and then `next` holds of the following character. */
  predicate Numbered(s: string, most: nat, next: char -> bool) {
    var n := DigitRun(s);
    1 <= n <= most && n + 1 < |s| && s[n] == '.' && next(s[n + 1])
  }

  lemma PrefixMeaning(s: string, prefix: string)
    ensures StartsWith(s, prefix) <==> |prefix| <= |s| && s[..|prefix|] == prefix
  {
    if |prefix| <= |s| && s[..|prefix|] == prefix { assert s == prefix + s[|prefix|..]; }
  }

  predicate AllSpace(s: string) {
    forall c :: c in s ==> IsSpace(c)
  }

  /** Nothing, or a text that does not start with white space. */
  predicate Flush(s: string) {
    s != "" ==> !IsSpace(s[0])
  }

  /** Stripping takes away exactly the white space in front. */
  lemma {:induction false} LStripMeaning(pad: string, s: string)
    requires AllSpace(pad) && Flush(s)
    ensures LStrip(pad + s) == s
  {
    if pad == "" {
      assert pad + s == s;
    } else {
      assert pad[0] in pad && (pad + s)[1..] == pad[1..] + s;
      forall c | c in pad[1..] ensures IsSpace(c) { assert c in pad; }
      LStripMeaning(pad[1..], s);
    }
  }

  /** And behind. */
  lemma {:induction false} RStripMeaning(s: string, pad: string)
    requires AllSpace(pad) && (s != "" ==> !IsSpace(s[|s| - 1]))
    ensures RStrip(s + pad) == s
  {
    var n := |pad| - 1;
    if pad == "" {
      assert s + pad == s;
    } else {
      assert pad[n] in pad && (s + pad)[..|s + pad| - 1] == s + pad[..n];
      forall c | c in pad[..n] ensures IsSpace(c) { assert c in pad; }
      RStripMeaning(s, pad[..n]);
    }
  }

  lemma StripMeaning(front: string, s: string, back: string)
    requires AllSpace(front) && AllSpace(back) && Flush(s) && (s != "" ==> !IsSpace(s[|s| - 1]))
    ensures Strip(front + s + back) == s
  {
    if s == "" {
      assert front + s + back == (front + back) + "";
      LStripMeaning(front + back, "");
    } else {
      assert front + s + back == front + (s + back);
      LStripMeaning(front, s + back);
      RStripMeaning(s, back);
    }
  }

  /** `n` digits, a full stop and then `next`. */
  ghost predicate HasNumber(s: string, n: nat, next: char -> bool) {
    && n + 1 < |s| && (forall i :: 0 <= i < n ==> '0' <= s[i] <= '9') && s[n] == '.' && next(s[n + 1])
  }

  lemma {:induction false} DigitRunIs(s: string, n: nat)
    requires n < |s| && !IsDigit(s[n]) && forall i :: 0 <= i < n ==> IsDigit(s[i])
    ensures DigitRun(s) == n
  {
    if n > 0 { DigitRunIs(s[1..], n - 1); }
  }

  lemma NumberedMeaning(s: string, most: nat, next: char -> bool)
    ensures Numbered(s, most, next) <==> exists n :: 1 <= n <= most && HasNumber(s, n, next)
  {
    if Numbered(s, most, next) { assert HasNumber(s, DigitRun(s), next); }
    if n :| 1 <= n <= most && HasNumber(s, n, next) { DigitRunIs(s, n); }
  }

  /** The longest prefix without white space. */
  function Run(s: string): (r: string)
    ensures r <= s && (s != "" && !IsSpace(s[0]) ==> r != "")
    ensures forall c :: c in r ==> !IsSpace(c)
  {
    if s == "" || IsSpace(s[0]) then "" else [s[0]] + Run(s[1..])
  }

  /** `s.split()` */
  function Words(s: string): (r: seq<string>)
    ensures forall w :: w in r ==> IsWord(w)
    decreases |s|
  {
    if s == "" then []
    else if IsSpace(s[0]) then Words(s[1..])
    else [Run(s)] + Words(s[|Run(s)|..])
  }

  predicate IsWord(w: string) {
    w != "" && forall c :: c in w ==> !IsSpace(c)
  }

  /** `separator.join(parts)` */
  function Join(parts: seq<string>, separator: string): string {
    if parts == [] then ""
    else if |parts| == 1 then parts[0]
    else parts[0] + separator + Join(parts[1..], separator)
  }

  lemma {:induction false} RunOfWord(w: string, rest: string)
    requires IsWord(w) && (rest == "" || IsSpace(rest[0]))
    ensures Run(w + rest) == w
  {
    if |w| == 1 {
      assert (w + rest)[1..] == rest;
    } else {
      assert IsWord(w[1..]) by { assert forall c :: c in w[1..] ==> c in w; }
      RunOfWord(w[1..], rest);
      assert (w + rest)[1..] == w[1..] + rest;
    }
    assert (w + rest)[0] == w[0] && w[0] in w;
  }

  lemma FirstWord(w: string, rest: string)
    requires IsWord(w) && (rest == "" || IsSpace(rest[0]))
    ensures Words(w + rest) == [w] + Words(rest)
  {
    var s := w + rest;
    RunOfWord(w, rest);
    assert s[0] == w[0] && w[0] in w;
    assert s[|w|..] == rest;
  }

  /** Words joined by single blanks split into those words. */
  lemma {:induction false} WordsOfJoined(words: seq<string>)
    requires forall w :: w in words ==> IsWord(w)
    ensures Words(Join(words, " ")) == words
  {
    hide IsWord, Words;
    if words == [] {
      NoWords();
    } else {
      assert words[0] in words;
      assert forall w :: w in words[1..] ==> w in words;
      WordsOfJoined(words[1..]);
      if |words| == 1 {
        FirstWord(words[0], "");
        NoWords();
        assert words[0] + "" == words[0];
      } else {
        var rest := Join(words[1..], " ");
        assert Join(words, " ") == words[0] + (" " + rest);
        FirstWord(words[0], " " + rest);
        AfterBlank(rest);
      }
    }
  }

  lemma NoWords()
    ensures Words("") == []
  {
  }

  lemma AfterBlank(s: string)
    ensures Words(" " + s) == Words(s)
  {
    assert (" " + s)[1..] == s;
  }

  /** Joining puts the separator between any two parts. */
  lemma {:induction false} JoinAppend(x: seq<string>, y: seq<string>, separator: string)
    requires x != [] && y != []
    ensures Join(x + y, separator) == Join(x, separator) + separator + Join(y, separator)
  {
    assert (x + y)[1..] == x[1..] + y;
    if |x| > 1 { JoinAppend(x[1..], y, separator); }
  }
}
