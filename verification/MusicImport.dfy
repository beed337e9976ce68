/**
 Synchronising declared music records into the table of a provider (boards/music_record_import.py).
 One import is one transaction.
 */
module MusicImport {
  import opened Prelude
  import opened Decimals
  import opened TextLines

  datatype Value = Null | Num(n: int) | Text(s: string)

  type Fields = map<string, Value>

  /** A row of the provider's table; `fields` holds every importable column. */
  datatype Row = Row(pk: nat, board: nat, fields: Fields, artist: Option<nat>)

  /** An artist; its primary key is its position. `url` is the column of the importing provider. */
  datatype Artist = Artist(board: nat, normalized: string, name: string, url: string)

  /** The rows in the order of their keys, the artists, and the next key. */
  datatype Library = Library(rows: seq<Row>, artists: seq<Artist>, nextPk: nat)

  /**
   What stays fixed during an import: the board, the column defaults, what a column makes of a value
   written to it (a text column of a number, say), the name normaliser.
   */
  datatype Target = Target(
    board: nat, defaults: Fields, store: (string, Value) -> Value, normalize: string -> string)

  const IMPORT_FIELDS: set<string> := {
    "title", "scope", "year", "month", "label", "value", "value2", "unit", "kind", "note", "rank", "play_count",
    "minutes", "external_url", "display_order"
  }
  const REQUIRED: set<string> := {"title", "scope", "year", "kind", "label", "value"}
  const RANKED_KINDS: set<Value> := {Text("top_artist"), Text("top_track"), Text("core_artist"), Text("period_artist")}

  /** What a column has stored it stores again as it is, and no other value becomes the name of a ranked kind. */
  ghost predicate ValidTarget(t: Target) {
    && (forall f, v :: t.store(f, t.store(f, v)) == t.store(f, v))
    && (forall v :: t.store("kind", v) in RANKED_KINDS <==> v in RANKED_KINDS)
    && WellStored(t, t.defaults)
  }

  /** A row of the table: every column is there, in its stored form. */
  ghost predicate WellStored(t: Target, fields: Fields) {
    IMPORT_FIELDS <= fields.Keys && forall f :: f in fields ==> t.store(f, fields[f]) == fields[f]
  }

  ghost predicate TableOk(t: Target, rows: seq<Row>) {
    forall i :: 0 <= i < |rows| ==> WellStored(t, rows[i].fields)
  }

  function Stored(t: Target, data: Fields): Fields {
    map f | f in data :: t.store(f, data[f])
  }

  /* ---------- Validation ---------- */

  datatype Problem = NotAnObject | UnsupportedFields | MissingFields | InvalidScope | InvalidMonth | RankRequired

  /** A valid record: the declared columns, and the artist name if one is declared. */
  datatype Declared = Declared(data: Fields, artistName: Option<string>)

  function Get(fields: Fields, name: string): Value {
    if name in fields then fields[name] else Null
  }

  predicate Truthy(v: Value) {
    match v case Null => false case Num(n) => n != 0 case Text(s) => s != ""
  }

  function AsText(v: Value): string {
    match v case Null => "None" case Num(n) => (if n < 0 then "-" + Digits(-n) else Digits(n)) case Text(s) => s
  }

  function WithMonth(data: Fields): Fields {
    if Get(data, "scope") == Text("yearly") then data["month" := Null] else data
  }

  /** `validate_music_record` */
  function Validate(raw: Option<Fields>): Result<Declared, Problem> {
    if raw == None then Err(NotAnObject)
    else if !(raw.value.Keys <= IMPORT_FIELDS + {"artist_name"}) then Err(UnsupportedFields)
    else
      var data := map f | f in raw.value && f in IMPORT_FIELDS :: raw.value[f];
      if !(REQUIRED <= data.Keys) then Err(MissingFields)
      else if data["scope"] !in {Text("yearly"), Text("monthly")} then Err(InvalidScope)
      else if data["scope"] == Text("monthly") && !(Get(data, "month").Num? && 1 <= Get(data, "month").n <= 12)
          then Err(InvalidMonth)
      else if data["kind"] in RANKED_KINDS && !Truthy(Get(data, "rank")) then Err(RankRequired)
      else
        var name := Get(raw.value, "artist_name");
        Ok(Declared(WithMonth(data), if name == Null then None else Some(Strip(AsText(name)))))
  }

  /* ---------- Identity ---------- */

  datatype Identity = Identity(board: nat, scope: Value, year: Value, month: Value, kind: Value, slot: Value)

  /** What `_identity_queryset` matches on: the rank for ranked kinds, the label for others. */
  function IdentityOf(board: nat, fields: Fields): Identity {
    var kind := Get(fields, "kind");
    Identity(board, Get(fields, "scope"), Get(fields, "year"), Get(fields, "month"), kind,
             Get(fields, if kind in RANKED_KINDS then "rank" else "label"))
  }

  function RowIdentity(row: Row): Identity {
    IdentityOf(row.board, row.fields)
  }

  /** A query compares with the stored form of what it is given. */
  function DeclaredId(t: Target, d: Declared): Identity {
    IdentityOf(t.board, Stored(t, d.data))
  }

  /** A declared record has importable columns only, and all that its identity needs. */
  predicate Complete(d: Declared) {
    && d.data.Keys <= IMPORT_FIELDS
    && {"scope", "year", "month", "kind", "label"} <= d.data.Keys
         && (d.data["kind"] in RANKED_KINDS ==> "rank" in d.data)
  }

  /* ---------- Artists ---------- */

  function FindArtist(artists: seq<Artist>, board: nat, normalized: string): (r: Option<nat>)
    ensures r.Some? ==>
        r.value < |artists| && artists[r.value].board == board && artists[r.value].normalized == normalized
  {
    if artists == [] then None
    else if artists[0].board == board && artists[0].normalized == normalized then Some(0)
    else
      match FindArtist(artists[1..], board, normalized) case None => None case Some(i) => Some(i + 1)
  }

  /** `_resolve_artist` */
  function ResolveArtist(artists: seq<Artist>, t: Target, name: string, url: Value): (seq<Artist>, Option<nat>) {
    if name == "" then (artists, None)
    else
      var found := FindArtist(artists, t.board, t.normalize(name));
      var all := if found.Some? then artists else artists + [Artist(t.board, t.normalize(name), name, "")];
      var i := if found.Some? then found.value else |artists|;
      (if Truthy(url) && all[i].url == "" then all[i := all[i].(url := AsText(url))] else all, Some(i))
  }

  function ArtistFor(artists: seq<Artist>, t: Target, d: Declared): (seq<Artist>, Option<nat>) {
    match d.artistName
    case None => (artists, None)
    case Some(name) =>
      ResolveArtist(artists, t, name, if Get(d.data, "kind") != Text("top_track") then Get(d.data, "external_url")
          else Null)
  }

  /* ---------- One record ---------- */

  datatype Counts = Counts(created: nat, updated: nat, deduplicated: nat)

  const NO_COUNTS := Counts(0, 0, 0)

  function FirstMatch(rows: seq<Row>, id: Identity): (r: Option<nat>)
    ensures r.Some? ==> r.value < |rows| && RowIdentity(rows[r.value]) == id
                        && forall k :: 0 <= k < r.value ==> RowIdentity(rows[k]) != id
    ensures r == None ==> forall k :: 0 <= k < |rows| ==> RowIdentity(rows[k]) != id
  {
    if rows == [] then None
    else if RowIdentity(rows[0]) == id then Some(0)
    else match FirstMatch(rows[1..], id) case None => None case Some(i) => Some(i + 1)
  }

  function UpdatedRow(row: Row, t: Target, d: Declared, artist: Option<nat>): Row {
    row.(fields := row.fields + Stored(t, d.data), artist := if d.artistName.Some? then artist else row.artist)
  }

  /** A column does not compare equal with its declared value, or the artist is another one. */
  predicate Differs(row: Row, d: Declared, artist: Option<nat>) {
    (exists f :: f in d.data.Keys && Get(row.fields, f) != d.data[f]) || (d.artistName.Some? && row.artist != artist)
  }

  function Others(rows: seq<Row>, id: Identity): seq<Row> {
    Filter(rows, (r: Row) => RowIdentity(r) != id)
  }

  /** One turn of the loop in `import_music_records`. */
  function ImportOne(lib: Library, t: Target, d: Declared, n: Counts): (Library, Counts) {
    var id := DeclaredId(t, d);
    var (artists, artist) := ArtistFor(lib.artists, t, d);
    match FirstMatch(lib.rows, id)
    case None =>
      (Library(lib.rows + [Row(lib.nextPk, t.board, t.defaults + Stored(t, d.data), artist)], artists, lib.nextPk + 1),
       n.(created := n.created + 1))
    case Some(i) =>
      var row := UpdatedRow(lib.rows[i], t, d, artist);
      var rest := Others(lib.rows[i + 1..], id);
      FilterIsShorter(lib.rows[i + 1..], (r: Row) => RowIdentity(r) != id);
      (Library(lib.rows[..i] + [row] + rest, artists, lib.nextPk),
       Counts(n.created, n.updated + (if Differs(lib.rows[i], d, artist) then 1 else 0),
           n.deduplicated + (|lib.rows| - i - 1 - |rest|)))
  }

  function ImportAll(lib: Library, t: Target, records: seq<Declared>): (Library, Counts) {
    if records == [] then (lib, NO_COUNTS)
    else
      var (before, n) := ImportAll(lib, t, records[..|records| - 1]);
      ImportOne(before, t, records[|records| - 1], n)
  }

  /** The valid records of a payload, up to the first invalid one. */
  function Records(payload: seq<Option<Fields>>): (seq<Declared>, Option<nat>) {
    if payload == [] then ([], None)
    else
      var n := |payload| - 1;
      match Records(payload[..n])
      case (records, Some(k)) => (records, Some(k))
      case (records, None) =>
        match Validate(payload[n]) case Ok(d) => (records + [d], None) case Err(_) => (records, Some(n))
  }

  class MusicTable {
    var library: Library

    constructor (initial: Library)
      ensures library == initial
    {
      library := initial;
    }

    /** `import_music_records` inside the transaction of its command; the position of an invalid record is raised. */
    method ImportMusicRecords(t: Target, payload: seq<Option<Fields>>) returns (counts: Counts, invalid: Option<nat>)
      requires ValidTarget(t) && TableOk(t, library.rows)
      modifies this
      ensures TableOk(t, library.rows)
      ensures invalid == Records(payload).1
      ensures invalid.Some? ==> library == old(library)
      ensures invalid == None ==> (library, counts) == ImportAll(old(library), t, Records(payload).0)
    {
      hide Validate, ImportOne, ValidTarget, TableOk, Complete;
      var before := library;
      counts := NO_COUNTS;
      invalid := None;
      ghost var done: seq<Declared> := [];
      for k := 0 to |payload|
        invariant Records(payload[..k]) == (done, None) && TableOk(t, library.rows)
        invariant (library, counts) == ImportAll(before, t, done)
      {
        assert payload[..k + 1][..k] == payload[..k];
        var checked := Validate(payload[k]);
        if checked.Err? {
          Invalid(payload, k);
          library := before;
          return NO_COUNTS, Some(k);
        }
        ValidIsComplete(payload[k]);
        StaysWellStored(library, t, checked.value, counts);
        library, counts := Synchronise(library, t, checked.value, counts);
        assert (done + [checked.value])[..|done|] == done;
        done := done + [checked.value];
      }
      assert payload[..|payload|] == payload;
    }
  }

  /** The body of the loop. */
  method Synchronise(lib: Library, t: Target, d: Declared, n: Counts) returns (after: Library, counts: Counts)
    requires ValidTarget(t) && TableOk(t, lib.rows) && Complete(d)
    ensures (after, counts) == ImportOne(lib, t, d, n)
  {
    hide FindArtist, ResolveArtist, RowIdentity, IdentityOf, Stored, ValidTarget, Complete, WellStored, Differs;
    var id := DeclaredId(t, d);
    var (artists, artist) := ArtistFor(lib.artists, t, d);
    var found := FirstMatch(lib.rows, id);
    if found == None {
      after := Library(lib.rows + [Row(lib.nextPk, t.board, t.defaults + Stored(t, d.data), artist)], artists,
          lib.nextPk + 1);
      counts := n.(created := n.created + 1);
    } else {
      var i := found.value;
      var target := lib.rows[i];
      ColumnsThere(target, t, d, artist);
      var fields, changed := ChangeColumns(target.fields, t, d.data);
      target := target.(fields := fields);
      if d.artistName.Some? && target.artist != artist {
        target := target.(artist := artist);
        changed := true;
      }
      var rest := Others(lib.rows[i + 1..], id);
      FilterIsShorter(lib.rows[i + 1..], (r: Row) => RowIdentity(r) != id);
      after := Library(lib.rows[..i] + [target] + rest, artists, lib.nextPk);
      counts := Counts(n.created, n.updated + (if changed then 1 else 0),
          n.deduplicated + (|lib.rows| - i - 1 - |rest|));
    }
  }

  /** Every column that differs is set, and what is saved of it is its stored form. */
  method ChangeColumns(fields: Fields, t: Target, data: Fields) returns (after: Fields, changed: bool)
    requires data.Keys <= fields.Keys && forall f :: f in fields ==> t.store(f, fields[f]) == fields[f]
    ensures after == fields + Stored(t, data)
    ensures changed <==> exists f :: f in data.Keys && fields[f] != data[f]
  {
    after, changed := fields, false;
    var todo := data.Keys;
    while todo != {}
      invariant todo <= data.Keys && after.Keys == fields.Keys
      invariant forall f :: f in fields ==>
        after[f] == if f in data && f !in todo then t.store(f, data[f]) else fields[f]
      invariant changed <==> exists f :: f in data.Keys - todo && fields[f] != data[f]
    {
      var f :| f in todo;
      ghost var done, before := data.Keys - todo, changed;
      if after[f] != data[f] {
        after := after[f := t.store(f, data[f])];
        changed := true;
      }
      todo := todo - {f};
      assert data.Keys - todo == done + {f};
    }
    assert data.Keys - todo == data.Keys;
  }

  lemma ColumnsThere(row: Row, t: Target, d: Declared, artist: Option<nat>)
    requires WellStored(t, row.fields) && Complete(d)
    ensures d.data.Keys <= row.fields.Keys && forall f :: f in row.fields ==> t.store(f, row.fields[f]) == row.fields[f]
    ensures Differs(row, d, artist) <==>
              (exists f :: f in d.data.Keys && row.fields[f] != d.data[f])
                  || (d.artistName.Some? && row.artist != artist)
  {
    forall f | f in d.data.Keys ensures Get(row.fields, f) == row.fields[f] {
    }
  }

  /** The table stays one of stored values. */
  lemma StaysWellStored(lib: Library, t: Target, d: Declared, n: Counts)
    requires ValidTarget(t) && TableOk(t, lib.rows)
    ensures TableOk(t, ImportOne(lib, t, d, n).0.rows)
  {
    hide FirstMatch, ArtistFor, DeclaredId, RowIdentity, Filter;
    var id := DeclaredId(t, d);
    var found := FirstMatch(lib.rows, id);
    if found.Some? {
      FilterMembers(lib.rows[found.value + 1..], (r: Row) => RowIdentity(r) != id);
      forall r | r in Others(lib.rows[found.value + 1..], id) ensures WellStored(t, r.fields) {
        assert r in lib.rows[found.value + 1..];
      }
    }
  }

  lemma {:induction false} Invalid(payload: seq<Option<Fields>>, k: nat)
    requires k < |payload| && Records(payload[..k]).1 == None && Validate(payload[k]).Err?
    ensures Records(payload).1 == Some(k)
    decreases |payload|
  {
    hide Validate;
    var n := |payload| - 1;
    if k < n {
      assert payload[..n][..k] == payload[..k];
      Invalid(payload[..n], k);
    }
  }

  /* ---------- What one record does ---------- */

  lemma ValidIsComplete(raw: Option<Fields>)
    ensures Validate(raw).Ok? ==> Complete(Validate(raw).value)
  {
  }

  /**
   A record is accepted if and only if it keeps to the importable columns and has the ones its kind
   and scope need.
   */
  lemma ValidMeaning(raw: Fields)
    ensures Validate(Some(raw)).Ok? <==>
            && raw.Keys <= {"title", "scope", "year", "month", "label", "value", "value2", "unit", "kind", "note",
                 "rank",
                            "play_count", "minutes", "external_url", "display_order", "artist_name"}
            && {"title", "scope", "year", "kind", "label", "value"} <= raw.Keys
            && (raw["scope"] == Text("yearly") ||
                (raw["scope"] == Text("monthly") && exists m :: 1 <= m <= 12 && Get(raw, "month") == Num(m)))
            && (raw["kind"] in {Text("top_artist"), Text("top_track"), Text("core_artist"), Text("period_artist")} ==>
                  Get(raw, "rank") !in {Null, Num(0), Text("")})
    ensures Validate(Some(raw)).Ok? ==>
              var d := Validate(Some(raw)).value;
              && (match Get(raw, "artist_name")
                  case Null => d.artistName == None
                  case Text(s) => d.artistName == Some(Strip(s))
                  case Num(n) => d.artistName == Some(Strip(if n < 0 then "-" + Digits(-n) else Digits(n))))
              && (forall f :: f in raw && f != "artist_name" && f != "month" ==> f in d.data && d.data[f] == raw[f])
              && (forall f :: f in d.data ==> f != "artist_name" && (f != "month" ==> f in raw))
              && d.data["month"] == (if raw["scope"] == Text("yearly") then Null else Get(raw, "month"))
  {
    assert Get(raw, "month").Num? ==> Get(raw, "month") == Num(Get(raw, "month").n);
  }

  /**
   Rows are of one identity if they agree on board, time and kind and, for a ranked kind, the rank,
   else the label.
   */
  lemma IdentityMeaning(a: Row, b: Row)
    ensures RowIdentity(a) == RowIdentity(b) <==>
            && a.board == b.board && Get(a.fields, "scope") == Get(b.fields, "scope")
            && Get(a.fields, "year") == Get(b.fields, "year") && Get(a.fields, "month") == Get(b.fields, "month")
            && Get(a.fields, "kind") == Get(b.fields, "kind")
            && if Get(a.fields, "kind") in {Text("top_artist"), Text("top_track"), Text("core_artist"),
                                            Text("period_artist")}
               then Get(a.fields, "rank") == Get(b.fields, "rank") else Get(a.fields, "label") == Get(b.fields, "label")
  {
  }

  ghost predicate IsArtist(a: Artist, t: Target, name: string) {
    a.board == t.board && a.normalized == t.normalize(name)
  }

  /**
   A name stands for the first artist of the board with its normal form, or for a new one of that name;
   a link given fills that artist's empty column, and nothing else changes. An empty name stands for nobody.
   */
  lemma ArtistMeaning(artists: seq<Artist>, t: Target, name: string, url: Value)
    ensures var (all, artist) := ResolveArtist(artists, t, name, url);
            if name == "" then (all, artist) == (artists, None)
            else
              var known := exists k :: 0 <= k < |artists| && IsArtist(artists[k], t, name);
              var before := if known then artists else artists + [Artist(t.board, t.normalize(name), name, "")];
              && artist.Some? && artist.value < |before| == |all|
              && IsArtist(before[artist.value], t, name)
              && (forall k :: 0 <= k < artist.value ==> !IsArtist(before[k], t, name))
              && all == before[artist.value := before[artist.value].(url := all[artist.value].url)]
              && IsLink(before[artist.value].url, url, all[artist.value].url)
  {
    hide Digits, AsText, Truthy, IsLink;
    FindFirst(artists, t.board, t.normalize(name));
    if name != "" {
      var found := FindArtist(artists, t.board, t.normalize(name));
      if found == None {
        var added := Artist(t.board, t.normalize(name), name, "");
        assert (artists + [added])[|artists|] == added && IsArtist(added, t, name);
        LinkMeaning("", url);
      } else {
        assert IsArtist(artists[found.value], t, name);
        LinkMeaning(artists[found.value].url, url);
      }
    }
  }

  /** The link column after a value was given for it: only an empty one is filled, and not with nothing. */
  ghost predicate IsLink(before: string, given: Value, after: string) {
    match given
    case Null => after == before
    case Text(s) => after == if before == "" then s else before
    case Num(n) =>
      if before != "" || n == 0 then after == before else after == if n < 0 then "-" + Digits(-n) else Digits(n)
  }

  lemma LinkMeaning(before: string, given: Value)
    ensures IsLink(before, given, if Truthy(given) && before == "" then AsText(given) else before)
  {
    hide Digits;
  }

  lemma {:induction false} FindFirst(artists: seq<Artist>, board: nat, normalized: string)
    ensures match FindArtist(artists, board, normalized)
            case None => forall k :: 0 <= k < |artists| ==>
              !(artists[k].board == board && artists[k].normalized == normalized)
            case Some(i) => forall k :: 0 <= k < i ==>
              !(artists[k].board == board && artists[k].normalized == normalized)
  {
    if artists != [] { FindFirst(artists[1..], board, normalized); }
  }

  /** Every row gained or lost is counted, every record at most once, and keys are drawn for new rows only. */
  lemma {:induction false} CountsBalance(lib: Library, t: Target, records: seq<Declared>)
    ensures var (after, n) := ImportAll(lib, t, records);
            && |after.rows| == |lib.rows| + n.created - n.deduplicated
            && after.nextPk == lib.nextPk + n.created
            && n.created + n.updated <= |records|
  {
    hide ImportOne;
    if records != [] {
      var init, last := records[..|records| - 1], records[|records| - 1];
      CountsBalance(lib, t, init);
      var (before, n) := ImportAll(lib, t, init);
      OneCounts(before, t, last, n);
    }
  }

  lemma OneCounts(lib: Library, t: Target, d: Declared, n: Counts)
    ensures var (after, m) := ImportOne(lib, t, d, n);
            && |after.rows| == |lib.rows| + (m.created - n.created) - (m.deduplicated - n.deduplicated)
            && after.nextPk == lib.nextPk + (m.created - n.created)
            && n.created <= m.created && n.updated <= m.updated && n.deduplicated <= m.deduplicated
            && m.created + m.updated <= n.created + n.updated + 1
            && (m.created > n.created <==>
                 forall k :: 0 <= k < |lib.rows| ==> RowIdentity(lib.rows[k]) != DeclaredId(t, d))
  {
    hide ArtistFor, RowIdentity, DeclaredId, Stored, Differs;
    var id := DeclaredId(t, d);
    if FirstMatch(lib.rows, id).Some? {
      FilterIsShorter(lib.rows[FirstMatch(lib.rows, id).value + 1..], (r: Row) => RowIdentity(r) != id);
    }
  }

  /** Writing the declared columns over any others gives a row of the declared identity. */
  lemma DeclaredIdentity(t: Target, others: Fields, d: Declared)
    requires ValidTarget(t) && Complete(d)
    ensures IdentityOf(t.board, others + Stored(t, d.data)) == DeclaredId(t, d)
  {
    hide WellStored;
    assert Stored(t, d.data)["kind"] in RANKED_KINDS <==> d.data["kind"] in RANKED_KINDS;
  }

  function RowsOf(rows: seq<Row>, id: Identity): seq<Row> {
    Filter(rows, (r: Row) => RowIdentity(r) == id)
  }

  /** The row holds the stored form of every declared value, and the artist. */
  predicate Agrees(row: Row, t: Target, d: Declared, artist: Option<nat>) {
    && (forall f :: f in d.data ==> f in row.fields && row.fields[f] == t.store(f, d.data[f]))
    && (d.artistName.Some? ==> row.artist == artist)
  }

  lemma {:induction false} FilterOfOthers(rows: seq<Row>, id: Identity, f: Row -> bool)
    requires forall r :: RowIdentity(r) == id ==> !f(r)
    ensures Filter(Others(rows, id), f) == Filter(rows, f)
  {
    FilterTwice(rows, (r: Row) => RowIdentity(r) != id, f, f);
  }

  lemma FilterOne(row: Row, f: Row -> bool)
    ensures Filter([row], f) == if f(row) then [row] else []
  {
    assert [row][1..] == [];
  }

  /** Rows of other identities are exactly those there were, in the same order. */
  lemma OthersUntouched(lib: Library, t: Target, d: Declared, n: Counts, f: Row -> bool)
    requires ValidTarget(t) && Complete(d) && forall r :: RowIdentity(r) == DeclaredId(t, d) ==> !f(r)
    ensures Filter(ImportOne(lib, t, d, n).0.rows, f) == Filter(lib.rows, f)
  {
    hide ArtistFor, Filter, IdentityOf, DeclaredId, Differs, ValidTarget, Complete, Stored;
    var id := DeclaredId(t, d);
    var artist := ArtistFor(lib.artists, t, d).1;
    var found := FirstMatch(lib.rows, id);
    if found == None {
      var row := Row(lib.nextPk, t.board, t.defaults + Stored(t, d.data), artist);
      DeclaredIdentity(t, t.defaults, d);
      FilterAppend(lib.rows, [row], f);
      FilterOne(row, f);
    } else {
      var i := found.value;
      var row := UpdatedRow(lib.rows[i], t, d, artist);
      DeclaredIdentity(t, lib.rows[i].fields, d);
      assert RowIdentity(row) == id by { BoardOfRow(lib.rows[i], t, d); }
      var rest := lib.rows[i + 1..];
      FilterAppend(lib.rows[..i] + [row], Others(rest, id), f);
      FilterAppend(lib.rows[..i], [row], f);
      FilterOne(row, f);
      FilterOfOthers(rest, id, f);
      assert lib.rows == lib.rows[..i] + ([lib.rows[i]] + rest);
      FilterAppend(lib.rows[..i], [lib.rows[i]] + rest, f);
      FilterAppend([lib.rows[i]], rest, f);
      FilterOne(lib.rows[i], f);
    }
  }

  lemma BoardOfRow(row: Row, t: Target, d: Declared)
    requires RowIdentity(row) == DeclaredId(t, d)
    ensures row.board == t.board
  {
  }

  /** After its turn a record has exactly one row, which agrees with it. */
  lemma OneRowAgrees(lib: Library, t: Target, d: Declared, n: Counts)
    requires ValidTarget(t) && Complete(d)
    ensures var rows := RowsOf(ImportOne(lib, t, d, n).0.rows, DeclaredId(t, d));
            |rows| == 1 && Agrees(rows[0], t, d, ArtistFor(lib.artists, t, d).1)
  {
    hide ArtistFor, Filter, IdentityOf, DeclaredId, Differs, ValidTarget, Complete, Stored;
    var id := DeclaredId(t, d);
    var same := (r: Row) => RowIdentity(r) == id;
    var artist := ArtistFor(lib.artists, t, d).1;
    var found := FirstMatch(lib.rows, id);
    if found == None {
      var row := Row(lib.nextPk, t.board, t.defaults + Stored(t, d.data), artist);
      DeclaredIdentity(t, t.defaults, d);
      FilterAppend(lib.rows, [row], same);
      FilterNone(lib.rows, same);
      FilterOne(row, same);
      assert RowsOf(lib.rows + [row], id) == [row];
      WrittenAgrees(row, t, t.defaults, d, artist);
    } else {
      var i := found.value;
      var row := UpdatedRow(lib.rows[i], t, d, artist);
      DeclaredIdentity(t, lib.rows[i].fields, d);
      BoardOfRow(lib.rows[i], t, d);
      var rest := Others(lib.rows[i + 1..], id);
      FilterMembers(lib.rows[i + 1..], (r: Row) => RowIdentity(r) != id);
      FilterNone(rest, same);
      FilterNone(lib.rows[..i], same);
      FilterAppend(lib.rows[..i] + [row], rest, same);
      FilterAppend(lib.rows[..i], [row], same);
      FilterOne(row, same);
      assert RowsOf(lib.rows[..i] + [row] + rest, id) == [row];
      WrittenAgrees(row, t, lib.rows[i].fields, d, artist);
    }
  }

  lemma WrittenAgrees(row: Row, t: Target, others: Fields, d: Declared, artist: Option<nat>)
    requires row.fields == others + Stored(t, d.data) && (d.artistName.Some? ==> row.artist == artist)
    ensures Agrees(row, t, d, artist)
  {
  }

  /* ---------- Artists settle ---------- */

  lemma {:induction false} FindAfterAppend(artists: seq<Artist>, a: Artist, board: nat, normalized: string)
    ensures FindArtist(artists + [a], board, normalized) ==
            if FindArtist(artists, board, normalized).Some? then FindArtist(artists, board, normalized)
            else if a.board == board && a.normalized == normalized then Some(|artists|) else None
  {
    if artists == [] {
      assert artists + [a] == [a] && [a][1..] == [];
    } else {
      assert (artists + [a])[1..] == artists[1..] + [a];
      FindAfterAppend(artists[1..], a, board, normalized);
    }
  }

  lemma {:induction false} FindAfterUrl(artists: seq<Artist>, i: nat, url: string, board: nat, normalized: string)
    requires i < |artists|
    ensures FindArtist(artists[i := artists[i].(url := url)], board, normalized) ==
        FindArtist(artists, board, normalized)
  {
    var changed := artists[i := artists[i].(url := url)];
    if i == 0 {
      assert changed[1..] == artists[1..];
    } else {
      assert changed[1..] == artists[1..][i - 1 := artists[1..][i - 1].(url := url)];
      FindAfterUrl(artists[1..], i - 1, url, board, normalized);
    }
  }

  /** Later tables know every artist of earlier ones under the same key, and keep the links already set. */
  ghost predicate Extends(before: seq<Artist>, now: seq<Artist>) {
    && |before| <= |now|
    && (forall board, normalized :: FindArtist(before, board, normalized).Some? ==>
          FindArtist(now, board, normalized) == FindArtist(before, board, normalized))
    && (forall i :: 0 <= i < |before| && before[i].url != "" ==> now[i].url != "")
  }

  lemma ResolveExtends(artists: seq<Artist>, t: Target, name: string, url: Value)
    ensures Extends(artists, ResolveArtist(artists, t, name, url).0)
  {
    hide FindArtist;
    if name != "" {
      var found := FindArtist(artists, t.board, t.normalize(name));
      var made := Artist(t.board, t.normalize(name), name, "");
      var all := if found.Some? then artists else artists + [made];
      var i := if found.Some? then found.value else |artists|;
      forall board, normalized | FindArtist(artists, board, normalized).Some?
        ensures FindArtist(ResolveArtist(artists, t, name, url).0, board, normalized) ==
            FindArtist(artists, board, normalized)
      {
        FindAfterAppend(artists, made, board, normalized);
        FindAfterUrl(all, i, AsText(url), board, normalized);
      }
    }
  }

  /** Resolving again, in any later table, finds the same artist and changes nothing. */
  lemma ResolveSettles(artists: seq<Artist>, t: Target, name: string, url: Value, now: seq<Artist>)
    requires Extends(ResolveArtist(artists, t, name, url).0, now)
    ensures ResolveArtist(now, t, name, url) == (now, ResolveArtist(artists, t, name, url).1)
  {
    hide FindArtist;
    if name != "" {
      var found := FindArtist(artists, t.board, t.normalize(name));
      var made := Artist(t.board, t.normalize(name), name, "");
      var all := if found.Some? then artists else artists + [made];
      var i := if found.Some? then found.value else |artists|;
      FindAfterAppend(artists, made, t.board, t.normalize(name));
      FindAfterUrl(all, i, AsText(url), t.board, t.normalize(name));
    }
  }

  lemma ArtistsExtend(lib: Library, t: Target, d: Declared, n: Counts)
    ensures Extends(lib.artists, ImportOne(lib, t, d, n).0.artists)
  {
    hide ResolveArtist, FindArtist, FirstMatch, Others, IdentityOf;
    if d.artistName.Some? {
      ResolveExtends(lib.artists, t, d.artistName.value,
                     if Get(d.data, "kind") != Text("top_track") then Get(d.data, "external_url") else Null);
    }
  }

  /* ---------- A record that is settled ---------- */

  /** The record has one row, which agrees, and its artist is known. */
  ghost predicate Settled(lib: Library, t: Target, d: Declared) {
    var rows := RowsOf(lib.rows, DeclaredId(t, d));
    var (artists, artist) := ArtistFor(lib.artists, t, d);
    artists == lib.artists && |rows| == 1 && Agrees(rows[0], t, d, artist)
  }

  lemma ImportSettles(lib: Library, t: Target, d: Declared, n: Counts)
    requires ValidTarget(t) && Complete(d)
    ensures Settled(ImportOne(lib, t, d, n).0, t, d)
  {
    hide RowsOf, ResolveArtist, FindArtist, FirstMatch, Others, IdentityOf, DeclaredId, Agrees, Differs;
    OneRowAgrees(lib, t, d, n);
    var after := ImportOne(lib, t, d, n).0;
    if d.artistName.Some? {
      var url := if Get(d.data, "kind") != Text("top_track") then Get(d.data, "external_url") else Null;
      assert after.artists == ResolveArtist(lib.artists, t, d.artistName.value, url).0;
      SameExtends(after.artists);
      ResolveSettles(lib.artists, t, d.artistName.value, url, after.artists);
    }
  }

  lemma SameExtends(artists: seq<Artist>)
    ensures Extends(artists, artists)
  {
  }

  lemma SettledStays(lib: Library, t: Target, d: Declared, other: Declared, n: Counts)
    requires ValidTarget(t) && Settled(lib, t, d) && Complete(other)
    requires DeclaredId(t, other) != DeclaredId(t, d)
    ensures Settled(ImportOne(lib, t, other, n).0, t, d)
  {
    hide ResolveArtist, FindArtist, FirstMatch, Others, IdentityOf, Agrees, ImportOne, Filter, Extends;
    var after := ImportOne(lib, t, other, n).0;
    var id := DeclaredId(t, d);
    OthersUntouched(lib, t, other, n, (r: Row) => RowIdentity(r) == id);
    assert RowsOf(after.rows, id) == RowsOf(lib.rows, id);
    ArtistsExtend(lib, t, other, n);
    if d.artistName.Some? {
      var url := if Get(d.data, "kind") != Text("top_track") then Get(d.data, "external_url") else Null;
      ResolveSettles(lib.artists, t, d.artistName.value, url, after.artists);
    }
  }

  lemma OnlyRow(rows: seq<Row>, id: Identity)
    requires |RowsOf(rows, id)| == 1
    ensures FirstMatch(rows, id).Some?
    ensures var i := FirstMatch(rows, id).value;
            rows[i] == RowsOf(rows, id)[0] && Others(rows[i + 1..], id) == rows[i + 1..]
  {
    hide Filter, RowIdentity;
    var same := (r: Row) => RowIdentity(r) == id;
    FilterMembers(rows, same);
    assert RowsOf(rows, id)[0] in RowsOf(rows, id);
    var i := FirstMatch(rows, id).value;
    var rest := rows[i + 1..];
    assert rows == rows[..i] + ([rows[i]] + rest);
    FilterAppend(rows[..i], [rows[i]] + rest, same);
    FilterAppend([rows[i]], rest, same);
    FilterOne(rows[i], same);
    FilterNone(rows[..i], same);
    assert RowsOf(rows, id) == [rows[i]] + Filter(rest, same);
    FilterMembers(rest, same);
    FilterAll(rest, (r: Row) => RowIdentity(r) != id);
  }

  /** Every declared value is its own stored form. */
  predicate Native(t: Target, d: Declared) {
    forall f :: f in d.data.Keys ==> t.store(f, d.data[f]) == d.data[f]
  }

  lemma AgreeingRowStays(row: Row, t: Target, d: Declared, artist: Option<nat>)
    requires Agrees(row, t, d, artist)
    ensures UpdatedRow(row, t, d, artist) == row
    ensures Differs(row, d, artist) <==> !Native(t, d)
  {
    assert row.fields + Stored(t, d.data) == row.fields;
    forall f | f in d.data.Keys ensures Get(row.fields, f) == t.store(f, d.data[f]) {
    }
    if f :| f in d.data.Keys && t.store(f, d.data[f]) != d.data[f] {
      assert Get(row.fields, f) != d.data[f];
    }
  }

  /** A settled record imports without effect; it is counted as updated unless its values are native. */
  lemma SettledRepeats(lib: Library, t: Target, d: Declared, n: Counts)
    requires Settled(lib, t, d)
    ensures ImportOne(lib, t, d, n) == (lib, n.(updated := n.updated + if Native(t, d) then 0 else 1))
  {
    hide ArtistFor, Filter, DeclaredId, RowIdentity, RowsOf, Agrees, UpdatedRow, Others, Differs, Native;
    var id := DeclaredId(t, d);
    OnlyRow(lib.rows, id);
    var i := FirstMatch(lib.rows, id).value;
    AgreeingRowStays(lib.rows[i], t, d, ArtistFor(lib.artists, t, d).1);
    assert lib.rows[..i] + [lib.rows[i]] + lib.rows[i + 1..] == lib.rows;
  }

  /* ---------- Whole imports ---------- */

  ghost predicate DistinctIdentities(t: Target, records: seq<Declared>) {
    forall i, j :: 0 <= i < j < |records| ==> DeclaredId(t, records[i]) != DeclaredId(t, records[j])
  }

  ghost predicate AllComplete(records: seq<Declared>) {
    forall i :: 0 <= i < |records| ==> Complete(records[i])
  }

  lemma {:induction false} PayloadIsComplete(payload: seq<Option<Fields>>)
    ensures AllComplete(Records(payload).0)
  {
    hide Validate, Complete;
    if payload != [] {
      PayloadIsComplete(payload[..|payload| - 1]);
      ValidIsComplete(payload[|payload| - 1]);
    }
  }

  lemma {:induction false} AllSettled(lib: Library, t: Target, records: seq<Declared>)
    requires ValidTarget(t) && DistinctIdentities(t, records) && AllComplete(records)
    ensures forall k :: 0 <= k < |records| ==> Settled(ImportAll(lib, t, records).0, t, records[k])
  {
    hide Settled, ImportOne, Complete, IdentityOf;
    if records != [] {
      var n := |records| - 1;
      AllSettled(lib, t, records[..n]);
      var (before, counts) := ImportAll(lib, t, records[..n]);
      forall k | 0 <= k < |records| ensures Settled(ImportAll(lib, t, records).0, t, records[k]) {
        if k < n {
          assert Settled(before, t, records[..n][k]);
          SettledStays(before, t, records[k], records[n], counts);
        } else {
          ImportSettles(before, t, records[n], counts);
        }
      }
    }
  }

  lemma {:induction false} UndeclaredUntouched(lib: Library, t: Target, records: seq<Declared>, f: Row -> bool)
    requires ValidTarget(t) && AllComplete(records)
    requires forall k, r :: 0 <= k < |records| && RowIdentity(r) == DeclaredId(t, records[k]) ==> !f(r)
    ensures Filter(ImportAll(lib, t, records).0.rows, f) == Filter(lib.rows, f)
  {
    hide ImportOne, Complete, IdentityOf, Filter;
    if records != [] {
      var n := |records| - 1;
      forall k, r | 0 <= k < n && RowIdentity(r) == DeclaredId(t, records[..n][k]) ensures !f(r) {
        assert records[..n][k] == records[k];
      }
      UndeclaredUntouched(lib, t, records[..n], f);
      OthersUntouched(ImportAll(lib, t, records[..n]).0, t, records[n], ImportAll(lib, t, records[..n]).1, f);
    }
  }

  /**
   One import of a valid payload with pairwise distinct identities leaves exactly one row for every
   declared identity, holding the stored form of all declared columns and the artist, and leaves
   every other row as it was.
   */
  lemma ImportSynchronises(lib: Library, t: Target, payload: seq<Option<Fields>>)
    requires ValidTarget(t) && Records(payload).1 == None && DistinctIdentities(t, Records(payload).0)
    ensures var records := Records(payload).0;
            var after := ImportAll(lib, t, records).0;
            && (forall k :: 0 <= k < |records| ==> Settled(after, t, records[k]))
            && var undeclared := (r: Row) =>
                 forall k :: 0 <= k < |records| ==> RowIdentity(r) != DeclaredId(t, records[k]);
               Filter(after.rows, undeclared) == Filter(lib.rows, undeclared)
  {
    hide Settled, ImportAll, Complete, DeclaredId, Filter, Records, ValidTarget;
    PayloadIsComplete(payload);
    var records := Records(payload).0;
    AllSettled(lib, t, records);
    UndeclaredUntouched(lib, t, records,
      (r: Row) => forall k :: 0 <= k < |records| ==> RowIdentity(r) != DeclaredId(t, records[k]));
  }

  /** How many of the records have a value that is not its own stored form. */
  function ForeignRecords(t: Target, records: seq<Declared>): nat {
    if records == [] then 0
    else ForeignRecords(t, records[..|records| - 1]) + if Native(t, records[|records| - 1]) then 0 else 1
  }

  lemma {:induction false} NoneForeign(t: Target, records: seq<Declared>)
    ensures ForeignRecords(t, records) == 0 <==> forall k :: 0 <= k < |records| ==> Native(t, records[k])
  {
    hide Native;
    if records != [] { NoneForeign(t, records[..|records| - 1]); }
  }

  lemma {:induction false} RepeatAll(lib: Library, t: Target, records: seq<Declared>)
    requires forall k :: 0 <= k < |records| ==> Settled(lib, t, records[k])
    ensures ImportAll(lib, t, records) == (lib, Counts(0, ForeignRecords(t, records), 0))
  {
    hide Settled, ImportOne, Native;
    if records != [] {
      var n := |records| - 1;
      RepeatAll(lib, t, records[..n]);
      SettledRepeats(lib, t, records[n], Counts(0, ForeignRecords(t, records[..n]), 0));
    }
  }

  /**
   Importing the same payload again at once changes nothing and creates and removes nothing. It
   reports as updated exactly the records with a value that is not its own stored form; so it reports
   nothing if and only if every declared value is.
   */
  lemma SecondImportDoesNothing(lib: Library, t: Target, payload: seq<Option<Fields>>)
    requires ValidTarget(t) && Records(payload).1 == None && DistinctIdentities(t, Records(payload).0)
    ensures var records := Records(payload).0;
            var after := ImportAll(lib, t, records).0;
            && ImportAll(after, t, records) == (after, Counts(0, ForeignRecords(t, records), 0))
            && (ImportAll(after, t, records).1 == NO_COUNTS <==>
                 forall k :: 0 <= k < |records| ==> Native(t, records[k]))
  {
    hide Settled, ImportAll, Complete, DeclaredId, Records, ValidTarget, Native, ForeignRecords;
    PayloadIsComplete(payload);
    var records := Records(payload).0;
    AllSettled(lib, t, records);
    RepeatAll(ImportAll(lib, t, records).0, t, records);
    NoneForeign(t, records);
  }

  /** A valid record with a number in the text column `value`. */
  const NUMBER_FOR_TEXT: Fields := map[
    "title" := Text("t"), "scope" := Text("yearly"), "year" := Num(2024), "kind" := Text("total"),
    "label" := Text("x"), "value" := Num(5)]

  /** Every import of it after the first reports one more update. */
  lemma NumberForTextIsAlwaysUpdated(lib: Library, t: Target)
    requires ValidTarget(t) && t.store("value", Num(5)) == Text("5")
    ensures Records([Some(NUMBER_FOR_TEXT)]).1 == None
    ensures var records := Records([Some(NUMBER_FOR_TEXT)]).0;
            var after := ImportAll(lib, t, records).0;
            ImportAll(after, t, records) == (after, Counts(0, 1, 0))
  {
    hide ImportAll, DeclaredId, Validate, ValidTarget;
    var payload := [Some(NUMBER_FOR_TEXT)];
    NumberForTextIsValid(t);
    OneRecord(Some(NUMBER_FOR_TEXT));
    var records := Records(payload).0;
    SecondImportDoesNothing(lib, t, payload);
    assert records[..0] == [];
  }

  lemma OneRecord(raw: Option<Fields>)
    requires Validate(raw).Ok?
    ensures Records([raw]) == ([Validate(raw).value], None)
  {
    hide Validate;
    assert [raw][..0] == [] && Records([]) == ([], None);
    assert [] + [Validate(raw).value] == [Validate(raw).value];
  }

  lemma NumberForTextIsValid(t: Target)
    ensures Validate(Some(NUMBER_FOR_TEXT)).Ok?
    ensures t.store("value", Num(5)) == Text("5") ==> !Native(t, Validate(Some(NUMBER_FOR_TEXT)).value)
  {
    var d := Validate(Some(NUMBER_FOR_TEXT)).value;
    assert "value" in d.data.Keys && d.data["value"] == Num(5);
  }
}
