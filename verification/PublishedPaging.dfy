/**
 Keyset paging of published posts in the review workspace (Blogs/views.py): one row is read ahead to
 learn whether there is a next page, and the cursor is a signed token bound to the filters.
 */
module PublishedPaging {
  import opened Prelude

  datatype PostKey = PostKey(createdTime: int, pk: int)

  type Filters = map<string, string>

  /** A token this site signed, or any other text. */
  datatype Token = Signed(key: PostKey, filters: Filters, issuedAt: int) | Foreign

  const MAX_AGE := 3600

  predicate Less(a: PostKey, b: PostKey) {
    a.createdTime < b.createdTime || (a.createdTime == b.createdTime && a.pk < b.pk)
  }

  /** The rows the filters admit, in the order (-created_time, -pk). */
  ghost predicate Descending(rows: seq<PostKey>) {
    forall i, j :: 0 <= i < j < |rows| ==> Less(rows[j], rows[i])
  }

  /** `_decode_published_cursor`; a token that is foreign, too old or of other filters reads as none. */
  function DecodeCursor(token: Option<Token>, filters: Filters, now: int): Option<PostKey> {
    match token
    case Some(Signed(key, bound, issuedAt)) =>
      if now - issuedAt <= MAX_AGE && bound == filters && key.pk > 0 then Some(key) else None
    case _ => None
  }

  datatype Page = Page(posts: seq<PostKey>, nextCursor: Option<Token>, isAppend: bool)

  function Matching(rows: seq<PostKey>, after: Option<PostKey>): seq<PostKey> {
    match after case None => rows case Some(key) => Filter(rows, (r: PostKey) => Less(r, key))
  }

  function PageOf(rows: seq<PostKey>, token: Option<Token>, filters: Filters, size: nat, now: int): Page {
    var after := DecodeCursor(token, filters, now);
    var left := Matching(rows, after);
    var posts := left[..Min(size, |left|)];
    Page(posts, if |left| > size && posts != [] then Some(Signed(posts[|posts| - 1], filters, now)) else None,
        after.Some?)
  }

  /** `_published_context` up to the page and its cursor. */
  method PublishedContext(rows: seq<PostKey>, token: Option<Token>, filters: Filters, size: nat, now: int)
      returns (page: Page)
    requires size > 0
    ensures page == PageOf(rows, token, filters, size, now)
  {
    hide DecodeCursor, Filter;
    var queryset := rows;
    var cursor := DecodeCursor(token, filters, now);
    if cursor.Some? {
      queryset := Filter(rows, (r: PostKey) => Less(r, cursor.value));
    }
    assert queryset == Matching(rows, cursor);
    var ahead := queryset[..Min(size + 1, |queryset|)];
    var posts := ahead[..Min(size, |ahead|)];
    assert posts == queryset[..Min(size, |queryset|)];
    var nextCursor: Option<Token> := None;
    if |ahead| > size {
      nextCursor := Some(Signed(posts[|posts| - 1], filters, now));
    }
    page := Page(posts, nextCursor, cursor.Some?);
  }

  /** Any two different rows are in order one way, and one way only. */
  lemma LessIsTotal(a: PostKey, b: PostKey)
    ensures a == b || Less(a, b) || Less(b, a)
    ensures !(Less(a, b) && Less(b, a)) && !Less(a, a)
  {
  }

  /** A token counts if and only if this site signed it for these filters, an hour ago at most, and with a real key. */
  lemma CursorMeaning(token: Option<Token>, filters: Filters, now: int, key: PostKey)
    ensures DecodeCursor(token, filters, now) == Some(key) <==>
            && token.Some? && token.value.Signed? && token.value.key == key && key.pk >= 1
            && token.value.filters == filters && now <= token.value.issuedAt + 3600
  {
  }

  /**
   A page is the next rows after the cursor, up to its size, and names the last of them as the next
   cursor, signed now and for these filters, if and only if there are more.
   */
  lemma PageMeaning(rows: seq<PostKey>, token: Option<Token>, filters: Filters, size: nat, now: int)
    requires size > 0
    ensures var page, after := PageOf(rows, token, filters, size, now), DecodeCursor(token, filters, now);
            var left := match after
                        case None => rows
                        case Some(key) => Filter(rows, (r: PostKey) => r.createdTime < key.createdTime ||
                                                   (r.createdTime == key.createdTime && r.pk < key.pk));
            page == if |left| <= size then Page(left, None, after.Some?)
                    else Page(left[..size], Some(Signed(left[size - 1], filters, now)), after.Some?)
  {
    hide DecodeCursor, Filter;
    var after := DecodeCursor(token, filters, now);
    if after.Some? {
      SameFilter(rows, (r: PostKey) => Less(r, after.value),
          (r: PostKey) => r.createdTime < after.value.createdTime ||
                          (r.createdTime == after.value.createdTime && r.pk < after.value.pk));
    }
    var left := Matching(rows, after);
    assert left[..|left|] == left;
  }

  /** All posts a reader gets who loads the next page at the given times; None if not at the end by then. */
  function Follow(rows: seq<PostKey>, token: Option<Token>, filters: Filters, size: nat,
      times: seq<int>): Option<seq<PostKey>>
    decreases |times|
  {
    if times == [] then None
    else
      var page := PageOf(rows, token, filters, size, times[0]);
      if page.nextCursor == None then Some(page.posts)
      else
        match Follow(rows, page.nextCursor, filters, size, times[1..])
        case None => None
        case Some(rest) => Some(page.posts + rest)
  }

  /** No page is loaded later than the cursor's life after the page before. */
  ghost predicate Prompt(times: seq<int>) {
    forall i :: 0 < i < |times| ==> times[i] - times[i - 1] <= MAX_AGE
  }

  lemma PageFrom(rows: seq<PostKey>, token: Option<Token>, k: nat, filters: Filters, size: nat, now: int)
    requires size > 0 && Descending(rows) && k <= |rows|
    requires forall r :: r in rows ==> r.pk > 0
    requires if k == 0 then token == None
             else token.Some? && token.value.Signed? && token.value.key == rows[k - 1] && token.value.filters == filters
                  && now - token.value.issuedAt <= MAX_AGE
    ensures var page := PageOf(rows, token, filters, size, now);
            && page.posts == rows[k..Min(k + size, |rows|)]
            && page.nextCursor == if k + size < |rows| then Some(Signed(rows[k + size - 1], filters, now)) else None
  {
    hide Filter;
    if k > 0 {
      var last := rows[k - 1];
      assert last in rows;
      assert DecodeCursor(token, filters, now) == Some(last);
      FilterSuffix(rows, k, (r: PostKey) => Less(r, last));
    }
    assert rows[0..] == rows;
    assert Matching(rows, DecodeCursor(token, filters, now)) == rows[k..];
  }

  lemma {:induction false} FollowFrom(
      rows: seq<PostKey>, token: Option<Token>, k: nat, filters: Filters, size: nat, times: seq<int>)
    requires size > 0 && Descending(rows) && k <= |rows| && Prompt(times) && times != []
    requires forall r :: r in rows ==> r.pk > 0
    requires if k == 0 then token == None
             else token.Some? && token.value.Signed? && token.value.key == rows[k - 1] && token.value.filters == filters
                  && times[0] - token.value.issuedAt <= MAX_AGE
    requires |times| > |rows| - k
    ensures Follow(rows, token, filters, size, times) == Some(rows[k..])
    decreases |times|
  {
    hide PageOf;
    PageFrom(rows, token, k, filters, size, times[0]);
    if k + size < |rows| {
      var next := PageOf(rows, token, filters, size, times[0]).nextCursor;
      forall i | 0 < i < |times[1..]| ensures times[1..][i] - times[1..][i - 1] <= MAX_AGE {
        assert times[i + 1] - times[i] <= MAX_AGE;
      }
      FollowFrom(rows, next, k + size, filters, size, times[1..]);
      assert rows[k..k + size] + rows[k + size..] == rows[k..];
    } else {
      assert rows[k..|rows|] == rows[k..];
    }
  }

  /**
   A reader who keeps the filters and loads every page within the life of its cursor gets every post
   exactly once, in order, and is then told that there is no more.
   */
  lemma PromptReaderSeesAll(rows: seq<PostKey>, filters: Filters, size: nat, times: seq<int>)
    requires size > 0 && Descending(rows) && Prompt(times) && |times| > |rows|
    requires forall r :: r in rows ==> r.pk > 0
    ensures Follow(rows, None, filters, size, times) == Some(rows)
  {
    FollowFrom(rows, None, 0, filters, size, times);
    assert rows[0..] == rows;
  }

  /** A cursor used too late, or under other filters, starts over: the first page comes again. */
  lemma LateReaderStartsOver(rows: seq<PostKey>, key: PostKey, bound: Filters, issuedAt: int, filters: Filters,
      size: nat, now: int)
    requires now - issuedAt > MAX_AGE || bound != filters
    ensures PageOf(rows, Some(Signed(key, bound, issuedAt)), filters, size, now) ==
        PageOf(rows, None, filters, size, now)
  {
  }
}
