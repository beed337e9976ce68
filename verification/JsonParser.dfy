/**
 A parser for the canonical text, as the partner of the encoder: parsing what was emitted gives
 the value back, hence canonical bytes determine the normalised value they were made from.
 */
module JsonParser {
  import opened Prelude
  import opened CanonicalJson
  import Utf8

  /* ---------- The parser ---------- */

  predicate IsDigit(c: char) {
    '0' <= c <= '9'
  }

  function HexValue(c: char): (r: Option<int>)
    ensures r.Some? ==> 0 <= r.value < 16
  {
    if '0' <= c <= '9' then Some(c as int - '0' as int)
    else if 'a' <= c <= 'f' then Some(c as int - 'a' as int + 10)
    else if 'A' <= c <= 'F' then Some(c as int - 'A' as int + 10)
    else None
  }

  /** The number four hexadecimal digits stand for. */
  function Hex4(s: string): (r: Option<int>)
    ensures r.Some? ==> 0 <= r.value < 0x10000
  {
    if |s| != 4 then None
    else
      match (HexValue(s[0]), HexValue(s[1]), HexValue(s[2]), HexValue(s[3]))
      case (Some(a), Some(b), Some(c), Some(d)) => Some(a * 4096 + b * 256 + c * 16 + d)
      case _ => None
  }

  predicate IsScalar(n: int) {
    0 <= n < 0xD800 || 0xE000 <= n < 0x11_0000
  }

  /**
   The character an escape stands for, a surrogate pair included, and what follows it; `s` starts
   after the backslash.
   */
  function ParseEscape(s: string): (r: Option<(char, string)>)
    ensures r.Some? ==> |r.value.1| < |s|
  {
    if s == "" then None
    else if s[0] == '\"' || s[0] == '\\' || s[0] == '/' then Some((s[0], s[1..]))
    else if s[0] == 'n' then Some(('\n', s[1..]))
    else if s[0] == 'r' then Some(('\r', s[1..]))
    else if s[0] == 't' then Some(('\t', s[1..]))
    else if s[0] == 'f' then Some((12 as char, s[1..]))
    else if s[0] == 'b' then Some((8 as char, s[1..]))
    else if s[0] == 'u' && |s| >= 5 then
      match Hex4(s[1..5])
      case None => None
      case Some(n) =>
        if IsScalar(n) then Some((n as char, s[5..]))
        else if n < 0xDC00 && |s| >= 11 && s[5] == '\\' && s[6] == 'u' then
          (match Hex4(s[7..11])
           case Some(low) =>
             if 0xDC00 <= low < 0xE000 then Some(((0x10000 + (n - 0xD800) * 0x400 + (low - 0xDC00)) as char,
                 s[11..])) else None
           case None => None)
        else None
    else None
  }

  /** The characters up to the closing quote, and what follows it. */
  function ParseChars(s: string): (r: Option<(string, string)>)
    ensures r.Some? ==> |r.value.1| < |s|
  {
    if s == "" then None
    else if s[0] == '\"' then Some(("", s[1..]))
    else if s[0] == '\\' then
      match ParseEscape(s[1..])
      case None => None
      case Some((c, after)) =>
        (match ParseChars(after)
         case None => None
         case Some((cs, rest)) => Some(([c] + cs, rest)))
    else if s[0] as int < 32 then None
    else
      match ParseChars(s[1..])
      case None => None
      case Some((cs, rest)) => Some(([s[0]] + cs, rest))
  }

  function ParseNat(acc: nat, s: string): (r: (nat, string))
    ensures |r.1| <= |s|
    decreases |s|
  {
    if s != "" && IsDigit(s[0]) then ParseNat(acc * 10 + (s[0] as int - '0' as int), s[1..])
    else (acc, s)
  }

  function ParseValue(s: string): (r: Option<(Json, string)>)
    ensures r.Some? ==> |r.value.1| < |s|
    decreases |s|, 0
  {
    if s == "" then None
    else if s[0] == 'n' then if |s| >= 4 && s[..4] == "null" then Some((Null, s[4..])) else None
    else if s[0] == 't' then if |s| >= 4 && s[..4] == "true" then Some((Bool(true), s[4..])) else None
    else if s[0] == 'f' then if |s| >= 5 && s[..5] == "false" then Some((Bool(false), s[5..])) else None
    else if s[0] == '\"' then
      match ParseChars(s[1..])
      case None => None
      case Some((cs, rest)) => Some((Str(cs), rest))
    else if s[0] == '[' then
      match ParseItems(s[1..], true)
      case None => None
      case Some((items, rest)) => Some((Arr(items), rest))
    else if s[0] == '{' then
      match ParseMembers(s[1..], true)
      case None => None
      case Some((members, rest)) => Some((Obj(members), rest))
    else if s[0] == '-' && |s| >= 2 && IsDigit(s[1]) then
      var (n, rest) := ParseNat(s[1] as int - '0' as int, s[2..]);
      Some((Int(-(n as int)), rest))
    else if IsDigit(s[0]) then
      var (n, rest) := ParseNat(s[0] as int - '0' as int, s[1..]);
      Some((Int(n), rest))
    else None
  }

  function ParseItems(s: string, first: bool): (r: Option<(seq<Json>, string)>)
    ensures r.Some? ==> |r.value.1| < |s|
    decreases |s|, 1
  {
    if s == "" then None
    else if s[0] == ']' then Some(([], s[1..]))
    else if !first && s[0] != ',' then None
    else
      match ParseValue(if first then s else s[1..])
      case None => None
      case Some((item, after)) =>
        (match ParseItems(after, false)
         case None => None
         case Some((items, rest)) => Some(([item] + items, rest)))
  }

  /** Of two members with one key the later counts. */
  function ParseMembers(s: string, first: bool): (r: Option<(map<string, Json>, string)>)
    ensures r.Some? ==> |r.value.1| < |s|
    decreases |s|, 1
  {
    if s == "" then None
    else if s[0] == '}' then Some((map[], s[1..]))
    else if !first && s[0] != ',' then None
    else
      var t := if first then s else s[1..];
      if t == "" || t[0] != '\"' then None
      else
        match ParseChars(t[1..])
        case None => None
        case Some((key, after)) =>
          if after == "" || after[0] != ':' then None
          else
            match ParseValue(after[1..])
            case None => None
            case Some((value, more)) =>
              (match ParseMembers(more, false)
               case None => None
               case Some((members, rest)) =>
                 Some((if key in members then members else members[key := value], rest)))
  }

  /** `json.loads` on canonical text: one value and nothing after it. */
  function Parse(s: string): Option<Json> {
    match ParseValue(s)
    case Some((j, "")) => Some(j)
    case _ => None
  }

  /* ---------- Parsing what was emitted ---------- */

  lemma ParseEscaped(c: char, rest: string)
    ensures EscapeChar(c) == [c] ==> c != '\"' && c != '\\' && c as int >= 32
    ensures EscapeChar(c) != [c] ==>
              EscapeChar(c)[0] == '\\' && ParseEscape((EscapeChar(c) + rest)[1..]) == Some((c, rest))
  {
    var e := EscapeChar(c);
    if e != [c] {
      assert forall i :: 0 <= i < |e| ==> (e + rest)[i] == e[i];
      assert (e + rest)[|e|..] == rest;
      if |e| == 2 {
        assert (e + rest)[1..][1..] == rest;
      } else {
        assert (e + rest)[1..][5..] == rest;
        assert (e + rest)[1..][1..5] == e[2..];
        assert HexValue(HexDigit(c as int / 16)) == Some(c as int / 16);
        assert HexValue(HexDigit(c as int % 16)) == Some(c as int % 16);
      }
    }
  }

  lemma {:induction false} ParseEmittedChars(s: string, rest: string)
    ensures ParseChars(EmitChars(s, rest)) == Some((s, rest))
  {
    if s == "" {
    } else {
      var tail := EmitChars(s[1..], rest);
      ParseEscaped(s[0], tail);
      ParseEmittedChars(s[1..], rest);
      assert [s[0]] + s[1..] == s;
      if EscapeChar(s[0]) == [s[0]] {
        assert EmitChars(s, rest)[1..] == tail;
      }
    }
  }

  predicate StartsWithDigit(s: string) {
    s != "" && IsDigit(s[0])
  }

  lemma {:induction false} ParseEmittedNat(n: nat, rest: string)
    ensures StartsWithDigit(EmitNat(n, rest))
    ensures var s := EmitNat(n, rest);
            ParseNat(s[0] as int - '0' as int, s[1..]) == ParseNat(n, rest)
  {
    if n < 10 {
      assert ([HexDigit(n)] + rest)[1..] == rest;
    } else {
      ParseEmittedNat(n / 10, [HexDigit(n % 10)] + rest);
      assert ([HexDigit(n % 10)] + rest)[1..] == rest;
    }
  }

  lemma ParseEmittedInt(n: int, rest: string)
    requires !StartsWithDigit(rest)
    ensures ParseValue(EmitInt(n, rest)) == Some((Int(n), rest))
  {
    if n < 0 {
      ParseEmittedNat(-n, rest);
      var s := EmitNat(-n, rest);
      assert ("-" + s)[1] == s[0] && ("-" + s)[2..] == s[1..];
    } else {
      ParseEmittedNat(n, rest);
    }
  }

  lemma ParseListText(body: string, items: seq<Json>, rest: string)
    requires ParseItems(body, true) == Some((items, rest))
    ensures ParseValue("[" + body) == Some((Arr(items), rest))
  {
    assert ("[" + body)[1..] == body;
  }

  lemma ParseObjectText(body: string, members: map<string, Json>, rest: string)
    requires ParseMembers(body, true) == Some((members, rest))
    ensures ParseValue("{" + body) == Some((Obj(members), rest))
  {
    assert ("{" + body)[1..] == body;
  }

  lemma ParseMemberText(
      key: string, value: Json, valueText: string, more: string, members: map<string, Json>, rest: string, first: bool)
    requires ParseValue(valueText) == Some((value, more))
    requires ParseMembers(more, false) == Some((members, rest)) && key !in members
    ensures ParseMembers((if first then "" else ",") + "\"" + EmitChars(key, ":" + valueText), first) ==
            Some((members[key := value], rest))
  {
    hide EmitChars, ParseValue, ParseChars;
    var after := ":" + valueText;
    ParseEmittedChars(key, after);
    assert after[1..] == valueText;
    var t := "\"" + EmitChars(key, after);
    assert t[1..] == EmitChars(key, after);
    var s := (if first then "" else ",") + "\"" + EmitChars(key, after);
    if first { assert s == t; } else { assert s == "," + t && s[1..] == t; }
  }

  lemma ParseEmittedLeaf(j: Json, rest: string)
    requires !j.Arr? && !j.Obj? && !StartsWithDigit(rest)
    ensures ParseValue(Emit(j, rest)) == Some((j, rest))
  {
    match j
    case Null => assert ("null" + rest)[..4] == "null" && ("null" + rest)[4..] == rest;
    case Bool(b) =>
      if b {
        assert ("true" + rest)[..4] == "true" && ("true" + rest)[4..] == rest;
      } else {
        assert ("false" + rest)[..5] == "false" && ("false" + rest)[5..] == rest;
      }
    case Int(n) => ParseEmittedInt(n, rest);
    case Str(s) =>
      ParseEmittedChars(s, rest);
      assert ("\"" + EmitChars(s, rest))[1..] == EmitChars(s, rest);
  }

  /** The text of a value followed by anything that cannot continue a number parses to the value. */
  lemma {:induction false} ParseEmitted(j: Json, rest: string)
    requires !StartsWithDigit(rest)
    ensures ParseValue(Emit(j, rest)) == Some((j, rest))
    decreases j, 1, 0
  {
    hide ParseValue, EmitItems, EmitMembers;
    if j.Arr? {
      ParseEmittedItems(j, 0, rest);
      ParseListText(EmitItems(j, 0, rest), j.items, rest);
    } else if j.Obj? {
      var keys := SortedKeys(j.members.Keys);
      ParseEmittedMembers(j, keys, true, rest);
      assert Select(j.members, Elements(keys)) == j.members;
      ParseObjectText(EmitMembers(j, keys, true, rest), j.members, rest);
    } else {
      ParseEmittedLeaf(j, rest);
    }
  }

  /** A value's text never starts like the end of a list or a comma. */
  lemma EmitHead(j: Json, rest: string)
    ensures Emit(j, rest) != ""
    ensures Emit(j, rest)[0] !in {']', '}', ','}
  {
    if j.Int? { ParseEmittedNat(if j.n < 0 then -j.n else j.n, rest); }
  }

  lemma {:induction false} ParseEmittedItems(j: Json, i: nat, rest: string)
    requires j.Arr? && i <= |j.items|
    ensures ParseItems(EmitItems(j, i, rest), i == 0) == Some((j.items[i..], rest))
    decreases j, 0, |j.items| - i
  {
    hide *;
    ItemsText(j, i, rest);
    if i < |j.items| {
      var tail := EmitItems(j, i + 1, rest);
      var text := Emit(j.items[i], tail);
      ParseEmittedItems(j, i + 1, rest);
      ItemsText(j, i + 1, rest);
      ParseEmitted(j.items[i], tail);
      EmitHead(j.items[i], tail);
      OneItem(text, j.items[i], tail, j.items[i + 1..], rest, i == 0);
      assert j.items[i..] == [j.items[i]] + j.items[i + 1..];
    } else {
      assert j.items[i..] == [];
      EndOfItems(rest, i == 0);
    }
  }

  lemma ItemsText(j: Json, i: nat, rest: string)
    requires j.Arr? && i <= |j.items|
    ensures i < |j.items| ==>
              var text := Emit(j.items[i], EmitItems(j, i + 1, rest));
              EmitItems(j, i, rest) == if i == 0 then text else "," + text
    ensures i == |j.items| ==> EmitItems(j, i, rest) == "]" + rest
    ensures i > 0 ==> !StartsWithDigit(EmitItems(j, i, rest))
  {
    hide Emit;
    if i < |j.items| {
      var text := Emit(j.items[i], EmitItems(j, i + 1, rest));
      assert "" + text == text;
    }
  }

  lemma EndOfItems(rest: string, first: bool)
    ensures ParseItems("]" + rest, first) == Some(([], rest))
  {
    assert ("]" + rest)[1..] == rest;
  }

  lemma OneItem(text: string, item: Json, tail: string, items: seq<Json>, rest: string, first: bool)
    requires text != "" && text[0] !in {']', '}', ','}
    requires ParseValue(text) == Some((item, tail)) && ParseItems(tail, false) == Some((items, rest))
    ensures ParseItems(if first then text else "," + text, first) == Some(([item] + items, rest))
  {
    hide ParseValue;
    assert ("," + text)[1..] == text;
  }

  ghost function Select(members: map<string, Json>, keys: set<string>): map<string, Json>
    requires keys <= members.Keys
  {
    map k | k in keys :: members[k]
  }

  lemma {:induction false} ParseEmittedMembers(j: Json, keys: seq<string>, first: bool, rest: string)
    requires j.Obj? && Elements(keys) <= j.members.Keys && Distinct(keys)
    ensures ParseMembers(EmitMembers(j, keys, first, rest), first) == Some((Select(j.members, Elements(keys)), rest))
    decreases j, 0, |keys|
  {
    hide ParseValue, ParseChars, EmitChars, Emit;
    if keys == [] {
      assert Elements(keys) == {};
    } else {
      var key, others := keys[0], keys[1..];
      assert key in Elements(keys);
      assert Elements(keys) == {key} + Elements(others);
      assert key !in Elements(others);
      ParseEmittedMembers(j, others, false, rest);
      ParseEmittedMember(j, keys, first, rest);
      var more := Select(j.members, Elements(others));
      assert more[key := j.members[key]] == Select(j.members, Elements(keys));
    }
  }

  lemma {:induction false} ParseEmittedMember(j: Json, keys: seq<string>, first: bool, rest: string)
    requires j.Obj? && keys != [] && Elements(keys) <= j.members.Keys && Distinct(keys)
    requires Elements(keys[1..]) <= j.members.Keys && keys[0] in j.members && keys[0] !in Elements(keys[1..])
    requires ParseMembers(EmitMembers(j, keys[1..], false, rest), false) ==
             Some((Select(j.members, Elements(keys[1..])), rest))
    ensures ParseMembers(EmitMembers(j, keys, first, rest), first) ==
            Some((Select(j.members, Elements(keys[1..]))[keys[0] := j.members[keys[0]]], rest))
    decreases j, 0, |keys| - 1
  {
    hide ParseValue, ParseMembers, ParseChars, EmitChars, Emit;
    var tail := EmitMembers(j, keys[1..], false, rest);
    TailHead(j, keys[1..], rest);
    ParseEmitted(j.members[keys[0]], tail);
    ParseMemberText(keys[0], j.members[keys[0]], Emit(j.members[keys[0]], tail), tail,
                    Select(j.members, Elements(keys[1..])), rest, first);
  }

  lemma TailHead(j: Json, keys: seq<string>, rest: string)
    requires j.Obj? && Elements(keys) <= j.members.Keys
    ensures !StartsWithDigit(EmitMembers(j, keys, false, rest))
  {
    hide EmitChars, Emit;
  }

  /* ---------- Theorems ---------- */

  /** `json.loads(json.dumps(j))` is `j`. */
  lemma ParseInvertsText(j: Json)
    ensures Parse(Text(j)) == Some(j)
  {
    ParseEmitted(j, "");
  }

  /** Canonical bytes determine the normalised value. */
  lemma BytesInjective(j: Json, k: Json)
    requires Bytes(j) == Bytes(k)
    ensures j == k
  {
    Utf8.EncodeInjective(Text(j), Text(k));
    ParseInvertsText(j);
    ParseInvertsText(k);
  }
}
