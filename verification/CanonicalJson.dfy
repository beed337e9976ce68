/**
 Canonical audit JSON (security/audit.py): normalisation of Python values, the key-sorted
 compact text that is signed, and a parser that shows the text determines the value.
 */
module CanonicalJson {
  import opened Prelude
  import Utf8

  /** A JSON value; an object is its Python `dict`, so equality ignores the order of its keys. */
  datatype Json =
    | Null
    | Bool(b: bool)
    | Int(n: int)
    | Str(s: string)
    | Arr(items: seq<Json>)
    | Obj(members: map<string, Json>)

  /** The Python values a caller may pass, with the order in which a mapping lists its entries. */
  datatype PyValue =
    | PyNone
    | PyBool(b: bool)
    | PyInt(n: int)
    | PyStr(s: string)
    | PyFloat
    | PyDatetime(utc: Option<string>)  // the UTC timestamp text; None for a naive datetime
    | PyUuid(text: string)
    | PyList(elements: seq<PyValue>)   // list or tuple
    | PyDict(entries: seq<PyEntry>)
    | PyOther

  datatype PyEntry = PyEntry(key: PyValue, value: PyValue)

  /* ---------- Normalisation ---------- */

  /** `_normalize`; None stands for the TypeError. */
  function Normalize(v: PyValue): Option<Json> {
    match v
    case PyNone => Some(Null)
    case PyBool(b) => Some(Bool(b))
    case PyInt(n) => Some(Int(n))
    case PyStr(s) => Some(Str(s))
    case PyFloat => None
    case PyDatetime(None) => None
    case PyDatetime(Some(text)) => Some(Str(text))
    case PyUuid(text) => Some(Str(text))
    case PyList(elements) =>
      (match NormalizeItems(elements)
       case None => None
       case Some(items) => Some(Arr(items)))
    case PyDict(entries) =>
      (match NormalizeEntries(entries)
       case None => None
       case Some(members) => Some(Obj(members)))
    case PyOther => None
  }

  function NormalizeItems(elements: seq<PyValue>): Option<seq<Json>> {
    if elements == [] then Some([])
    else
      match (Normalize(elements[0]), NormalizeItems(elements[1..]))
      case (Some(item), Some(items)) => Some([item] + items)
      case _ => None
  }

  function NormalizeEntries(entries: seq<PyEntry>): Option<map<string, Json>> {
    if entries == [] then Some(map[])
    else
      match (NormalizeEntry(entries[0]), NormalizeEntries(entries[1..]))
      case (Some((key, value)), Some(members)) => Some(members[key := value])
      case _ => None
  }

  function NormalizeEntry(e: PyEntry): Option<(string, Json)> {
    if !e.key.PyStr? then None
    else
      match Normalize(e.value)
      case None => None
      case Some(value) => Some((e.key.s, value))
  }

  /** A normalised value seen as a Python value again. */
  function Lift(j: Json): PyValue {
    match j
    case Null => PyNone
    case Bool(b) => PyBool(b)
    case Int(n) => PyInt(n)
    case Str(s) => PyStr(s)
    case Arr(items) => PyList(seq(|items|, i requires 0 <= i < |items| => Lift(items[i])))
    case Obj(members) =>
      var keys := SortedKeys(members.Keys);
      PyDict(seq(|keys|, i requires 0 <= i < |keys| =>
          assert keys[i] in members; PyEntry(PyStr(keys[i]), Lift(members[keys[i]]))))
  }

  /* ---------- The order of keys ---------- */

  /** Python's string order: code point by code point. */
  predicate Before(a: string, b: string) {
    if b == "" then false
    else if a == "" then true
    else if a[0] != b[0] then a[0] < b[0]
    else Before(a[1..], b[1..])
  }

  lemma {:induction false} BeforeTrichotomy(a: string, b: string)
    ensures Before(a, b) || a == b || Before(b, a)
    ensures !(Before(a, b) && Before(b, a))
  {
    if a != "" && b != "" {
      assert a == [a[0]] + a[1..] && b == [b[0]] + b[1..];
      BeforeTrichotomy(a[1..], b[1..]);
    }
  }

  lemma {:induction false} BeforeTransitive(a: string, b: string, c: string)
    requires Before(a, b) && Before(b, c)
    ensures Before(a, c)
  {
    if a != "" && a[0] == b[0] == c[0] {
      BeforeTransitive(a[1..], b[1..], c[1..]);
    }
  }

  ghost predicate Ascending(keys: seq<string>) {
    forall i, j :: 0 <= i < j < |keys| ==> Before(keys[i], keys[j])
  }

  predicate IsLeast(k: string, s: set<string>) {
    k in s && forall o :: o in s ==> o == k || Before(k, o)
  }

  lemma {:induction false} LeastKeyExists(s: set<string>) returns (k: string)
    requires s != {}
    ensures IsLeast(k, s)
  {
    var x :| x in s;
    if s == {x} {
      k := x;
    } else {
      var y := LeastKeyExists(s - {x});
      BeforeTrichotomy(x, y);
      k := if Before(x, y) then x else y;
      forall o | o in s ensures o == k || Before(k, o) {
        if Before(x, y) && o != x && o != y { BeforeTransitive(x, y, o); }
      }
    }
  }

  lemma LeastKeyUnique(s: set<string>)
    ensures forall k, m :: IsLeast(k, s) && IsLeast(m, s) ==> k == m
  {
    forall k, m | IsLeast(k, s) && IsLeast(m, s) ensures k == m {
      BeforeTrichotomy(k, m);
    }
  }

  function LeastKey(s: set<string>): (k: string)
    requires s != {}
    ensures IsLeast(k, s)
  {
    LeastKeyUnique(s);
    assert exists k :: IsLeast(k, s) by { var k := LeastKeyExists(s); }
    var k :| k in s && IsLeast(k, s);
    k
  }

  /** `sort_keys=True`: the keys in ascending order, each once. */
  function SortedKeys(s: set<string>): (keys: seq<string>)
    ensures Elements(keys) == s
    ensures Ascending(keys)
    ensures Distinct(keys)
  {
    if s == {} then []
    else
      var k := LeastKey(s);
      var rest := SortedKeys(s - {k});
      assert forall x :: x in rest ==> x in Elements(rest);
      assert Elements([k] + rest) == s by {
        forall x ensures x in [k] + rest <==> x in s {
          assert x in rest <==> x in Elements(rest);
        }
      }
      [k] + rest
  }

  /* ---------- Text ---------- */

  function HexDigit(d: int): char
    requires 0 <= d < 16
  {
    if d < 10 then ('0' as int + d) as char else ('a' as int + (d - 10)) as char
  }

  /** Escapes of section 7 of RFC 8259, in the spelling of Python's encoder (`ensure_ascii=False`). */
  function EscapeChar(c: char): (r: string)
    ensures 1 <= |r|
  {
    if c == '\"' then "\\\""
    else if c == '\\' then "\\\\"
    else if c == '\n' then "\\n"
    else if c == '\r' then "\\r"
    else if c == '\t' then "\\t"
    else if c as int == 12 then "\\f"
    else if c as int == 8 then "\\b"
    else if c as int < 32 then "\\u00" + [HexDigit(c as int / 16), HexDigit(c as int % 16)]
    else [c]
  }

  /** The seven short escapes; other control characters are written by their number, and all others as they are. */
  lemma EscapeMeaning(c: char)
    ensures EscapeChar('\"') == "\\\"" && EscapeChar('\\') == "\\\\"
    ensures EscapeChar('\n') == "\\n" && EscapeChar('\r') == "\\r" && EscapeChar('\t') == "\\t"
    ensures EscapeChar(12 as char) == "\\f" && EscapeChar(8 as char) == "\\b"
    ensures c as int >= 32 && c != '\"' && c != '\\' ==> EscapeChar(c) == [c]
    ensures c as int < 32 && c as int !in {8, 9, 10, 12, 13} ==>
              |EscapeChar(c)| == 6 && EscapeChar(c)[..4] == "\\u00"
  {
  }

  /** The characters of a string literal up to its closing quote, then `rest`. */
  function EmitChars(s: string, rest: string): string {
    if s == "" then "\"" + rest else EscapeChar(s[0]) + EmitChars(s[1..], rest)
  }

  function EmitNat(n: nat, rest: string): string {
    if n < 10 then [HexDigit(n)] + rest else EmitNat(n / 10, [HexDigit(n % 10)] + rest)
  }

  function EmitInt(n: int, rest: string): string {
    if n < 0 then "-" + EmitNat(-n, rest) else EmitNat(n, rest)
  }

  /** The compact text of `j` (`separators=(",", ":")`, sorted keys), followed by `rest`. */
  function Emit(j: Json, rest: string): string
    decreases j, 1, 0
  {
    match j
    case Null => "null" + rest
    case Bool(true) => "true" + rest
    case Bool(false) => "false" + rest
    case Int(n) => EmitInt(n, rest)
    case Str(s) => "\"" + EmitChars(s, rest)
    case Arr(items) => "[" + EmitItems(j, 0, rest)
    case Obj(members) => "{" + EmitMembers(j, SortedKeys(members.Keys), true, rest)
  }

  /** Items from position `i` on; an item that is not the first is led by a comma. */
  function EmitItems(j: Json, i: nat, rest: string): string
    requires j.Arr? && i <= |j.items|
    decreases j, 0, |j.items| - i
  {
    if i == |j.items| then "]" + rest
    else (if i == 0 then "" else ",") + Emit(j.items[i], EmitItems(j, i + 1, rest))
  }

  function EmitMembers(j: Json, keys: seq<string>, first: bool, rest: string): string
    requires j.Obj? && Elements(keys) <= j.members.Keys
    decreases j, 0, |keys|
  {
    if keys == [] then "}" + rest
    else
      assert keys[0] in Elements(keys);
      assert Elements(keys[1..]) <= Elements(keys);
      (if first then "" else ",") + "\"" +
        EmitChars(keys[0], ":" + Emit(j.members[keys[0]], EmitMembers(j, keys[1..], false, rest)))
  }

  /** `json.dumps(...)` on a normalised value. */
  function Text(j: Json): string {
    Emit(j, "")
  }

  /** `canonical_json_bytes` on a normalised value. */
  function Bytes(j: Json): seq<Utf8.byte> {
    Utf8.Encode(Text(j))
  }

  /** `canonical_json_bytes`; None stands for the TypeError. */
  function CanonicalBytes(v: PyValue): Option<seq<Utf8.byte>> {
    match Normalize(v)
    case None => None
    case Some(j) => Some(Bytes(j))
  }
}
