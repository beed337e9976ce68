/** Small vocabulary shared by the modules: optional values, results with an error. */
module Prelude {

  datatype Option<+T> = None | Some(value: T)

  datatype Result<+T, +E> = Ok(value: T) | Err(error: E)

  /** The elements of a sequence, as a set. */
  ghost function Elements<T>(s: seq<T>): set<T> {
    set x | x in s
  }

  ghost predicate Distinct<T>(s: seq<T>) {
    forall i, j :: 0 <= i < j < |s| ==> s[i] != s[j]
  }

  function Min(a: int, b: int): int {
    if a <= b then a else b
  }

  function Max(a: int, b: int): int {
    if a >= b then a else b
  }

  predicate IsAscii(s: string) {
    forall c :: c in s ==> c as int < 128
  }

  /* ---------- Filtering a sequence ---------- */

  /** The elements that satisfy a condition, in their order. */
  function Filter<T(!new)>(rows: seq<T>, keep: T -> bool): seq<T> {
    if rows == [] then []
    else if keep(rows[0]) then [rows[0]] + Filter(rows[1..], keep)
    else Filter(rows[1..], keep)
  }

  /** Filters with pointwise equal conditions are equal. */
  lemma {:induction false} SameFilter<T(!new)>(rows: seq<T>, f: T -> bool, g: T -> bool)
    requires forall x :: x in rows ==> f(x) == g(x)
    ensures Filter(rows, f) == Filter(rows, g)
  {
    if rows != [] {
      assert rows[0] in rows;
      forall x | x in rows[1..] ensures f(x) == g(x) { assert x in rows; }
      SameFilter(rows[1..], f, g);
    }
  }

  lemma {:induction false} FilterAll<T(!new)>(rows: seq<T>, f: T -> bool)
    requires forall x :: x in rows ==> f(x)
    ensures Filter(rows, f) == rows
  {
    if rows != [] {
      assert rows[0] in rows;
      forall x | x in rows[1..] ensures f(x) { assert x in rows; }
      FilterAll(rows[1..], f);
    }
  }

  lemma {:induction false} FilterNone<T(!new)>(rows: seq<T>, f: T -> bool)
    requires forall x :: x in rows ==> !f(x)
    ensures Filter(rows, f) == []
  {
    if rows != [] {
      assert rows[0] in rows;
      forall x | x in rows[1..] ensures !f(x) { assert x in rows; }
      FilterNone(rows[1..], f);
    }
  }

  lemma {:induction false} FilterMembers<T(!new)>(rows: seq<T>, f: T -> bool)
    ensures forall x :: x in Filter(rows, f) <==> x in rows && f(x)
  {
    if rows != [] { FilterMembers(rows[1..], f); }
  }

  lemma {:induction false} FilterTwice<T(!new)>(rows: seq<T>, f: T -> bool, g: T -> bool, both: T -> bool)
    requires forall x :: x in rows ==> both(x) == (f(x) && g(x))
    ensures Filter(Filter(rows, f), g) == Filter(rows, both)
  {
    if rows != [] {
      assert rows[0] in rows;
      forall x | x in rows[1..] ensures both(x) == (f(x) && g(x)) { assert x in rows; }
      FilterTwice(rows[1..], f, g, both);
      if f(rows[0]) {
        assert ([rows[0]] + Filter(rows[1..], f))[1..] == Filter(rows[1..], f);
      }
    }
  }

  lemma {:induction false} FilterAppend<T(!new)>(x: seq<T>, y: seq<T>, f: T -> bool)
    ensures Filter(x + y, f) == Filter(x, f) + Filter(y, f)
  {
    if x == [] {
      assert x + y == y;
    } else {
      assert (x + y)[1..] == x[1..] + y;
      FilterAppend(x[1..], y, f);
    }
  }

  /** A condition that holds from position `k` on and not before selects that suffix. */
  lemma {:induction false} FilterSuffix<T(!new)>(rows: seq<T>, k: nat, f: T -> bool)
    requires k <= |rows|
    requires forall i :: 0 <= i < k ==> !f(rows[i])
    requires forall i :: k <= i < |rows| ==> f(rows[i])
    ensures Filter(rows, f) == rows[k..]
  {
    if rows != [] {
      if k == 0 {
        FilterSuffix(rows[1..], 0, f);
      } else {
        FilterSuffix(rows[1..], k - 1, f);
        assert rows[1..][k - 1..] == rows[k..];
      }
    }
  }

  lemma {:induction false} FilterIsShorter<T(!new)>(x: seq<T>, f: T -> bool)
    ensures |Filter(x, f)| <= |x|
  {
    if x != [] { FilterIsShorter(x[1..], f); }
  }

  /* ---------- Counting in a sequence ---------- */

  /** Where in the sequence the condition holds. */
  ghost function Positions<T(!new)>(rows: seq<T>, p: T -> bool): set<nat> {
    set i: nat | i < |rows| && p(rows[i])
  }

  lemma NoPositions<T(!new)>(rows: seq<T>, p: T -> bool)
    ensures |Positions(rows, p)| == 0 <==> forall i :: 0 <= i < |rows| ==> !p(rows[i])
  {
    if exists i :: 0 <= i < |rows| && p(rows[i]) {
      var i: nat :| i < |rows| && p(rows[i]);
      assert i in Positions(rows, p);
    }
  }

  lemma OneMorePosition<T(!new)>(rows: seq<T>, p: T -> bool)
    requires rows != []
    ensures |Positions(rows, p)| == |Positions(rows[..|rows| - 1], p)| + if p(rows[|rows| - 1]) then 1 else 0
  {
    var n := |rows| - 1;
    var before := Positions(rows[..n], p);
    assert forall i: nat :: i < n ==> rows[..n][i] == rows[i];
    if p(rows[n]) {
      assert Positions(rows, p) == before + {n};
    } else {
      assert Positions(rows, p) == before;
    }
  }
}
