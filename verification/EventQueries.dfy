/** Keyset paging over audit evidence (security/queries.py): the cursor, and following it to the end. */
module EventQueries {
  import opened Prelude
  import opened CanonicalJson
  import opened JsonParser
  import opened Base64Url
  import opened Utf8

  /* ---------- The cursor ---------- */

  function FourHex(n: int): string
    requires 0 <= n < 0x10000
  {
    var (a, b, c) := (n / 16, n / 16 / 16, n / 16 / 16 / 16);
    [HexDigit(c), HexDigit(b % 16), HexDigit(a % 16), HexDigit(n % 16)]
  }

  /** Escapes of `json.dumps` with its default `ensure_ascii`. */
  function EscapeAscii(c: char): (r: string)
    ensures r != ""
  {
    var n := c as int;
    if n < 127 then EscapeChar(c)
    else if n < 0x10000 then "\\u" + FourHex(n)
    else "\\u" + FourHex(0xD800 + (n - 0x10000) / 0x400) + "\\u" + FourHex(0xDC00 + (n - 0x10000) % 0x400)
  }

  function AsciiChars(s: string, rest: string): string {
    if s == "" then "\"" + rest else EscapeAscii(s[0]) + AsciiChars(s[1..], rest)
  }

  /** `json.dumps([occurred_at, event_id], separators=(",", ":"))` */
  function CursorText(occurredAt: string, id: string): string {
    "[\"" + AsciiChars(occurredAt, ",\"" + AsciiChars(id, "]"))
  }

  function AsciiBytes(s: string): seq<byte> {
    seq(|s|, i requires 0 <= i < |s| => if s[i] as int < 128 then s[i] as int else 0)
  }

  /** The text of ASCII bytes. */
  function AsciiText(b: seq<byte>): Option<string> {
    if forall i :: 0 <= i < |b| ==> b[i] < 128
    then Some(seq(|b|, i requires 0 <= i < |b| => if b[i] < 128 then b[i] as char else ' '))
    else None
  }

  /** `_encode_cursor` */
  function EncodeCursor(occurredAt: string, id: string): string {
    Encode64(AsciiBytes(CursorText(occurredAt, id)))
  }

  const CURSOR_LIMIT := 512

  /** `_decode_cursor`; None stands for its ValueError. */
  function DecodeCursor(value: string): Option<(string, string)> {
    if |value| > CURSOR_LIMIT then None
    else
      match Decode64(value)
      case None => None
      case Some(bytes) =>
        match AsciiText(bytes)
        case None => None
        case Some(text) =>
          match Parse(text)
          case Some(Arr(items)) =>
            if |items| == 2 && items[0].Str? && items[1].Str? && items[0].s != "" && items[1].s != ""
            then Some((items[0].s, items[1].s)) else None
          case _ => None
  }

  lemma HexDigits(n: int)
    requires 0 <= n < 0x10000
    ensures Hex4(FourHex(n)) == Some(n)
    ensures IsAscii(FourHex(n))
  {
    hide HexDigit, HexValue;
    var (a, b, c) := (n / 16, n / 16 / 16, n / 16 / 16 / 16);
    assert n == a * 16 + n % 16 && a == b * 16 + a % 16 && b == c * 16 + b % 16;
    HexBack(c);
    HexBack(b % 16);
    HexBack(a % 16);
    HexBack(n % 16);
  }

  lemma HexBack(d: int)
    requires 0 <= d < 16
    ensures HexValue(HexDigit(d)) == Some(d) && HexDigit(d) as int < 128
  {
  }

  lemma ScalarChar(c: char)
    ensures IsScalar(c as int)
  {
  }

  lemma ParseAsciiEscape(c: char, rest: string)
    ensures IsAscii(EscapeAscii(c))
    ensures c as int >= 127 ==>
        EscapeAscii(c)[0] == '\\' && ParseEscape((EscapeAscii(c) + rest)[1..]) == Some((c, rest))
  {
    hide Hex4, FourHex, HexDigit, HexValue;
    var n := c as int;
    ScalarChar(c);
    var e := EscapeAscii(c);
    if 127 <= n < 0x10000 {
      HexDigits(n);
      FourLong(n);
      var s := (e + rest)[1..];
      assert s == "u" + FourHex(n) + rest;
      assert s[1..5] == FourHex(n) && s[5..] == rest;
    } else if n >= 0x10000 {
      PairEscape(c, rest);
    } else {
      HexBack(n / 16 % 16);
      HexBack(n % 16);
    }
  }

  lemma PairEscape(c: char, rest: string)
    requires c as int >= 0x10000
    ensures IsAscii(EscapeAscii(c)) && EscapeAscii(c)[0] == '\\'
    ensures ParseEscape((EscapeAscii(c) + rest)[1..]) == Some((c, rest))
  {
    hide Hex4, FourHex, HexDigit, HexValue;
    var n := c as int;
    var high, low := 0xD800 + (n - 0x10000) / 0x400, 0xDC00 + (n - 0x10000) % 0x400;
    HexDigits(high);
    HexDigits(low);
    var s := (EscapeAscii(c) + rest)[1..];
    assert |FourHex(high)| == 4 && |FourHex(low)| == 4 by { FourLong(high); FourLong(low); }
    assert s == "u" + FourHex(high) + "\\u" + FourHex(low) + rest;
    assert s[1..5] == FourHex(high) && s[5] == '\\' && s[6] == 'u' && s[7..11] == FourHex(low) && s[11..] == rest;
    assert 0x10000 + (high - 0xD800) * 0x400 + (low - 0xDC00) == n;
  }

  lemma FourLong(n: int)
    requires 0 <= n < 0x10000
    ensures |FourHex(n)| == 4
  {
  }

  lemma {:induction false} ParseAsciiChars(s: string, rest: string)
    requires IsAscii(rest)
    ensures ParseChars(AsciiChars(s, rest)) == Some((s, rest))
    ensures IsAscii(AsciiChars(s, rest))
  {
    hide EscapeChar, ParseEscape;
    if s == "" {
      assert ("\"" + rest)[1..] == rest;
    } else {
      var c, tail := s[0], AsciiChars(s[1..], rest);
      ParseAsciiChars(s[1..], rest);
      ParseEscaped(c, tail);
      ParseAsciiEscape(c, tail);
      assert [c] + s[1..] == s;
      var e := EscapeAscii(c);
      if e == [c] {
        assert AsciiChars(s, rest)[1..] == tail;
      } else {
        assert AsciiChars(s, rest)[0] == '\\';
      }
    }
  }

  lemma ParseCursorText(occurredAt: string, id: string)
    ensures Parse(CursorText(occurredAt, id)) == Some(Arr([Str(occurredAt), Str(id)]))
    ensures IsAscii(CursorText(occurredAt, id))
  {
    hide ParseChars, AsciiChars;
    var end := "]";
    ParseAsciiChars(id, end);
    var second := "\"" + AsciiChars(id, end);
    assert ParseValue(second) == Some((Str(id), end)) by { assert second[1..] == AsciiChars(id, end); }
    ParseAsciiChars(occurredAt, "," + second);
    assert ",\"" + AsciiChars(id, end) == "," + second;
    var first := "\"" + AsciiChars(occurredAt, "," + second);
    assert ParseValue(first) == Some((Str(occurredAt), "," + second))
        by { assert first[1..] == AsciiChars(occurredAt, "," + second); }
    assert CursorText(occurredAt, id) == "[" + first;
    assert ("[" + first)[1..] == first && ("," + second)[1..] == second;
    assert ParseItems(end, false) == Some(([], "")) by { assert end[1..] == ""; }
    assert [Str(id)] + [] == [Str(id)];
    assert ParseItems("," + second, false) == Some(([Str(id)], ""));
    assert [Str(occurredAt)] + [Str(id)] == [Str(occurredAt), Str(id)];
    assert ParseItems(first, true) == Some(([Str(occurredAt), Str(id)], ""));
  }

  lemma AsciiRoundTrip(s: string)
    requires IsAscii(s)
    ensures AsciiText(AsciiBytes(s)) == Some(s)
  {
    var b := AsciiBytes(s);
    forall i | 0 <= i < |b| ensures b[i] == s[i] as int { assert s[i] in s; }
    assert AsciiText(b).value == s;
  }

  /** A key a cursor can carry. */
  predicate Encodable(occurredAt: string, id: string) {
    occurredAt != "" && id != "" && |EncodeCursor(occurredAt, id)| <= CURSOR_LIMIT
  }

  /**
   A cursor decodes to the pair it encodes if and only if both parts are non-empty and it is within
   the length bound; any other pair's cursor is refused.
   */
  lemma CursorRoundTrip(occurredAt: string, id: string)
    ensures DecodeCursor(EncodeCursor(occurredAt, id)) == if Encodable(occurredAt, id) then Some((occurredAt, id))
        else None
  {
    hide Parse, CursorText, Decode64, Encode64, AsciiText, AsciiBytes;
    var text := CursorText(occurredAt, id);
    ParseCursorText(occurredAt, id);
    DecodeEncoded(AsciiBytes(text));
    AsciiRoundTrip(text);
  }

  /* ---------- Pages ---------- */

  datatype EventKey = EventKey(occurredAt: string, id: string)

  predicate Less(a: EventKey, b: EventKey) {
    Before(a.occurredAt, b.occurredAt) || (a.occurredAt == b.occurredAt && Before(a.id, b.id))
  }

  /** The matching documents in the order of the query: (occurred_at, _id) descending, keys distinct. */
  ghost predicate Descending(docs: seq<EventKey>) {
    forall i, j :: 0 <= i < j < |docs| ==> Less(docs[j], docs[i])
  }

  datatype Page = Page(items: seq<EventKey>, nextCursor: Option<string>)

  function Bounded(limit: int): (b: nat)
    ensures 1 <= b <= 200
  {
    Max(1, Min(limit, 200))
  }

  /** `query_audit_events` over the documents that satisfy the filters; None stands for an invalid cursor. */
  function QueryPage(docs: seq<EventKey>, cursor: Option<string>, limit: int): Option<Page> {
    var after := if cursor.Some? && cursor.value != "" then DecodeCursor(cursor.value) else None;
    if cursor.Some? && cursor.value != "" && after == None then None
    else
      var matching := if after.Some?
          then Filter(docs, (d: EventKey) => Less(d, EventKey(after.value.0, after.value.1))) else docs;
      var items := matching[..Min(Bounded(limit), |matching|)];
      Some(Page(items,
                if |items| == Bounded(limit) then Some(EncodeCursor(items[|items| - 1].occurredAt,
                    items[|items| - 1].id)) else None))
  }

  /**
   One page: with no cursor, or an empty one, it starts at the first document, with another it takes
   the documents below the pair the cursor carries, and it is refused if and only if it carries none.
   It is as long as the limit, at least one and at most 200, allows, and has a cursor if and only if it is full.
   */
  lemma PageMeaning(docs: seq<EventKey>, cursor: Option<string>, limit: int)
    ensures var b := if limit < 1 then 1 else if limit > 200 then 200 else limit;
            var page := QueryPage(docs, cursor, limit);
            if cursor == None || cursor == Some("") then page.Some? && IsPage(page.value, docs, b)
            else
              match DecodeCursor(cursor.value)
              case None => page == None
              case Some((occurredAt, id)) =>
                && page.Some?
                && IsPage(page.value, Filter(docs, (d: EventKey) =>
                     Before(d.occurredAt, occurredAt) || (d.occurredAt == occurredAt && Before(d.id, id))), b)
  {
    hide DecodeCursor, EncodeCursor, Before, Filter;
    if cursor.Some? && cursor.value != "" && DecodeCursor(cursor.value).Some? {
      var (occurredAt, id) := DecodeCursor(cursor.value).value;
      SameFilter(docs, (d: EventKey) => Less(d, EventKey(occurredAt, id)),
          (d: EventKey) => Before(d.occurredAt, occurredAt) || (d.occurredAt == occurredAt && Before(d.id, id)));
    }
  }

  ghost predicate IsPage(page: Page, left: seq<EventKey>, b: nat) {
    if |left| < b then page == Page(left, None)
    else b > 0 && page == Page(left[..b], Some(EncodeCursor(left[b - 1].occurredAt, left[b - 1].id)))
  }

  /**
   All items a client gets that follows `next_cursor` for at most `requests` further requests; None
   if refused, or not at the end by then.
   */
  function Follow(docs: seq<EventKey>, cursor: Option<string>, limit: int, requests: nat): Option<seq<EventKey>>
    decreases requests
  {
    match QueryPage(docs, cursor, limit)
    case None => None
    case Some(page) =>
      if page.nextCursor == None then Some(page.items)
      else if requests == 0 then None
      else
        match Follow(docs, page.nextCursor, limit, requests - 1)
        case None => None
        case Some(rest) => Some(page.items + rest)
  }

  /** The number of pages of `b` that `n` documents fill or begin. */
  function PageCount(n: nat, b: nat): nat
    requires b > 0
  {
    (n + b - 1) / b
  }

  /** The order of the query: any two different documents are in order one way, and one way only. */
  lemma LessIsStrict(a: EventKey, b: EventKey)
    ensures !(Less(a, b) && Less(b, a)) && !Less(a, a)
    ensures a == b || Less(a, b) || Less(b, a)
  {
    BeforeTrichotomy(a.occurredAt, b.occurredAt);
    BeforeTrichotomy(a.id, b.id);
    BeforeTrichotomy(a.occurredAt, a.occurredAt);
    BeforeTrichotomy(a.id, a.id);
  }

  /** Below a document come exactly those after it. */
  lemma BelowIsRest(docs: seq<EventKey>, k: nat)
    requires Descending(docs) && 0 < k <= |docs|
    ensures Filter(docs, (d: EventKey) => Less(d, EventKey(docs[k - 1].occurredAt, docs[k - 1].id))) == docs[k..]
  {
    hide Less, Filter;
    var last := docs[k - 1];
    assert EventKey(last.occurredAt, last.id) == last;
    var f := (d: EventKey) => Less(d, EventKey(last.occurredAt, last.id));
    forall i | 0 <= i < k ensures !f(docs[i]) { LessIsStrict(docs[i], last); }
    FilterSuffix(docs, k, f);
  }

  /** The cursor that stands for the first `k` documents having been returned. */
  ghost predicate Reached(docs: seq<EventKey>, cursor: Option<string>, k: nat) {
    && k <= |docs|
    && (if k == 0 then cursor == None else cursor == Some(EncodeCursor(docs[k - 1].occurredAt, docs[k - 1].id)))
  }

  lemma NextPage(docs: seq<EventKey>, cursor: Option<string>, k: nat, limit: int)
    requires Descending(docs) && Reached(docs, cursor, k)
    requires forall d :: d in docs ==> Encodable(d.occurredAt, d.id)
    ensures var end := Min(k + Bounded(limit), |docs|);
            && QueryPage(docs, cursor, limit).Some?
            && QueryPage(docs, cursor, limit).value.items == docs[k..end]
            && (var next := QueryPage(docs, cursor, limit).value.nextCursor;
                if k + Bounded(limit) <= |docs| then Reached(docs, next, end) && k < end else next == None)
  {
    hide Less, Filter, DecodeCursor, EncodeCursor, Descending;
    if k > 0 {
      var last := docs[k - 1];
      CursorRoundTrip(last.occurredAt, last.id);
      BelowIsRest(docs, k);
      SomeCursor(last.occurredAt, last.id);
    }
    assert docs[0..] == docs;
    assert docs[k..][..Min(Bounded(limit), |docs[k..]|)] == docs[k..Min(k + Bounded(limit), |docs|)];
  }

  lemma SomeCursor(occurredAt: string, id: string)
    ensures EncodeCursor(occurredAt, id) != ""
  {
  }

  lemma {:induction false} FollowFrom(docs: seq<EventKey>, cursor: Option<string>, k: nat, limit: int, requests: nat)
    requires Descending(docs) && Reached(docs, cursor, k)
    requires forall d :: d in docs ==> Encodable(d.occurredAt, d.id)
    requires requests * Bounded(limit) >= |docs| - k
    ensures Follow(docs, cursor, limit, requests) == Some(docs[k..])
    decreases |docs| - k
  {
    hide QueryPage, Descending, Encodable, Bounded, EncodeCursor;
    NextPage(docs, cursor, k, limit);
    var b := Bounded(limit);
    if k + b <= |docs| {
      var next := QueryPage(docs, cursor, limit).value.nextCursor;
      OneRequestLess(requests, b, |docs| - k);
      NextIsSome(docs, next, k + b);
      FollowFrom(docs, next, k + b, limit, requests - 1);
      assert docs[k..k + b] + docs[k + b..] == docs[k..];
    } else {
      assert docs[k..|docs|] == docs[k..];
    }
  }

  lemma OneRequestLess(requests: nat, b: nat, left: nat)
    requires 0 < b <= left && requests * b >= left
    ensures requests > 0 && (requests - 1) * b >= left - b
  {
  }

  lemma NextIsSome(docs: seq<EventKey>, cursor: Option<string>, k: nat)
    requires Reached(docs, cursor, k) && k > 0
    ensures cursor.Some?
  {
  }

  /**
   From the first page on, following the cursor returns every matching document exactly once, in
   order, and then stops: one request and one more for every full page, for any limit.
   */
  lemma PagesCoverEverything(docs: seq<EventKey>, limit: int)
    requires Descending(docs)
    requires forall d :: d in docs ==> Encodable(d.occurredAt, d.id)
    ensures Follow(docs, None, limit, PageCount(|docs|, Bounded(limit))) == Some(docs)
  {
    hide Follow, Descending, Encodable, PageCount;
    var b := Bounded(limit);
    PagesSuffice(|docs|, b);
    FollowFrom(docs, None, 0, limit, PageCount(|docs|, b));
    assert docs[0..] == docs;
  }

  lemma PagesSuffice(n: nat, b: nat)
    requires b > 0
    ensures PageCount(n, b) * b >= n && (PageCount(n, b) - 1) * b < n
  {
    var q := (n + b - 1) / b;
    assert n + b - 1 == q * b + (n + b - 1) % b;
  }

  /* ---------- The keys of stored events ---------- */

  /** A printable ASCII character that JSON does not escape. */
  predicate Plain(c: char) {
    32 <= c as int < 127 && c != '"' && c != '\\'
  }

  predicate AllPlain(s: string) {
    forall c :: c in s ==> Plain(c)
  }

  lemma {:induction false} PlainChars(s: string, rest: string)
    requires AllPlain(s)
    ensures |AsciiChars(s, rest)| == |s| + 1 + |rest|
  {
    if s != "" {
      assert s[0] in s;
      PlainEscape(s[0]);
      PlainChars(s[1..], rest);
    }
  }

  lemma PlainEscape(c: char)
    requires Plain(c)
    ensures |EscapeAscii(c)| == 1
  {
  }

  /** A cursor can carry two non-empty plain texts if and only if they have no more than 377 characters together. */
  lemma PlainKeysFit(occurredAt: string, id: string)
    requires AllPlain(occurredAt) && AllPlain(id) && occurredAt != "" && id != ""
    ensures Encodable(occurredAt, id) <==> |occurredAt| + |id| <= 377
  {
    hide AsciiChars, Encode64;
    PlainChars(id, "]");
    PlainChars(occurredAt, ",\"" + AsciiChars(id, "]"));
    assert |CursorText(occurredAt, id)| == |occurredAt| + |id| + 7;
  }

  /** What `_utc_timestamp` renders: 27 characters for years of four digits. */
  predicate IsTimestamp(s: string) {
    0 < |s| <= 27 && forall c :: c in s ==> '0' <= c <= '9' || c in "-:.TZ"
  }

  /** The text of a UUID. */
  predicate IsUuid(s: string) {
    |s| == 36 && forall c :: c in s ==> '0' <= c <= '9' || 'a' <= c <= 'f' || c == '-'
  }

  /** What `insert_event` stores of an event: a timestamp as `occurred_at` and a UUID as `_id`. */
  predicate StoredKey(d: EventKey) {
    IsTimestamp(d.occurredAt) && IsUuid(d.id)
  }

  lemma StoredKeyIsEncodable(d: EventKey)
    requires StoredKey(d)
    ensures Encodable(d.occurredAt, d.id)
  {
    hide Encodable;
    assert forall c :: c in "-:.TZ" ==> Plain(c);
    PlainKeysFit(d.occurredAt, d.id);
  }

  /** So following the cursor returns every stored event. */
  lemma StoredEventsAreCovered(docs: seq<EventKey>, limit: int)
    requires Descending(docs) && forall d :: d in docs ==> StoredKey(d)
    ensures Follow(docs, None, limit, PageCount(|docs|, Bounded(limit))) == Some(docs)
  {
    hide Follow, Descending, Encodable, PageCount, StoredKey;
    forall d | d in docs ensures Encodable(d.occurredAt, d.id) { StoredKeyIsEncodable(d); }
    PagesCoverEverything(docs, limit);
  }
}
