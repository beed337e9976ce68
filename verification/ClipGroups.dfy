/** Grouping clips for display, two upright and three wide ones at a time (boards/board_index.py). */
module ClipGroups {
  import opened Prelude

  datatype Orientation = Portrait | Landscape | Square | Unknown(text: string)

  datatype Clip = Clip(pk: nat, orientation: Orientation)

  datatype Group = Group(vertical: seq<Clip>, horizontal: seq<Clip>)

  /** The first `n` elements, or all. */
  function Front<T>(s: seq<T>, n: nat): seq<T> {
    if n <= |s| then s[..n] else s
  }

  function Back<T>(s: seq<T>, n: nat): seq<T> {
    if n <= |s| then s[n..] else []
  }

  const PORTRAIT: Clip -> bool := (c: Clip) => c.orientation == Portrait
  const WIDE: Clip -> bool := (c: Clip) => c.orientation == Landscape || c.orientation == Square
  const OTHER: Clip -> bool := (c: Clip) => c.orientation.Unknown?

  /** How many clips of the queue go into the slots a row has left. */
  function Room(row: seq<Clip>, size: nat, queue: seq<Clip>): (k: nat)
    ensures k <= |queue|
  {
    Min(|queue|, Max(0, size - |row|))
  }

  /** The next group, and the unknown clips left after it. */
  function NextGroup(p: seq<Clip>, l: seq<Clip>, u: seq<Clip>): (Group, seq<Clip>) {
    var v, h := Front(p, 2), Front(l, 3);
    var i := Room(v, 2, u);
    var j := Room(h, 3, u[i..]);
    (Group(v + u[..i], h + u[i..][..j]), u[i..][j..])
  }

  lemma NextGroupShrinks(p: seq<Clip>, l: seq<Clip>, u: seq<Clip>)
    ensures |NextGroup(p, l, u).1| <= |u|
    ensures p != [] || l != [] || u != [] ==> |Back(p, 2)| + |Back(l, 3)| + |NextGroup(p, l, u).1| < |p| + |l| + |u|
  {
  }

  /** The groups made of three queues. */
  function Grouped(portraits: seq<Clip>, landscapes: seq<Clip>, unknown: seq<Clip>): seq<Group>
    decreases |portraits| + |landscapes| + |unknown|
  {
    if portraits == [] && landscapes == [] && unknown == [] then []
    else
      var (group, left) := NextGroup(portraits, landscapes, unknown);
      NextGroupShrinks(portraits, landscapes, unknown);
      [group] + Grouped(Back(portraits, 2), Back(landscapes, 3), left)
  }

  /** The three queues, in the order of the clips. */
  method Sort(clips: seq<Clip>) returns (portraits: seq<Clip>, landscapes: seq<Clip>, unknown: seq<Clip>)
    ensures portraits == Filter(clips, PORTRAIT) && landscapes == Filter(clips, WIDE) && unknown == Filter(clips, OTHER)
  {
    portraits, landscapes, unknown := [], [], [];
    for n := 0 to |clips|
      invariant portraits + Filter(clips[n..], PORTRAIT) == Filter(clips, PORTRAIT)
      invariant landscapes + Filter(clips[n..], WIDE) == Filter(clips, WIDE)
      invariant unknown + Filter(clips[n..], OTHER) == Filter(clips, OTHER)
    {
      var clip := clips[n];
      assert clips[n..][0] == clip && clips[n..][1..] == clips[n + 1..];
      if clip.orientation == Portrait {
        portraits := portraits + [clip];
      } else if clip.orientation == Landscape || clip.orientation == Square {
        landscapes := landscapes + [clip];
      } else {
        unknown := unknown + [clip];
      }
    }
  }

  /** Unknown clips take the slots left in a row. */
  method TopUp(row: seq<Clip>, size: nat, queue: seq<Clip>) returns (full: seq<Clip>, left: seq<Clip>)
    ensures full == row + queue[..Room(row, size, queue)] && left == queue[Room(row, size, queue)..]
  {
    full, left := row, queue;
    ghost var taken := 0;
    while |full| < size && left != []
      invariant taken <= |queue| && full == row + queue[..taken] && left == queue[taken..]
      invariant taken <= Max(0, size - |row|)
      decreases |left|
    {
      assert queue[..taken] + [queue[taken]] == queue[..taken + 1];
      full := full + [left[0]];
      left := left[1..];
      taken := taken + 1;
    }
  }

  /** `prepare_skate_clips` without the display attributes. */
  method PrepareSkateClips(clips: seq<Clip>) returns (groups: seq<Group>)
    ensures groups == Grouped(Filter(clips, PORTRAIT), Filter(clips, WIDE), Filter(clips, OTHER))
  {
    hide Front, Back, Room, Filter;
    var portraits, landscapes, unknown := Sort(clips);
    groups := [];
    ghost var all := Grouped(portraits, landscapes, unknown);
    while portraits != [] || landscapes != [] || unknown != []
      invariant groups + Grouped(portraits, landscapes, unknown) == all
      decreases |portraits| + |landscapes| + |unknown|
    {
      NextGroupShrinks(portraits, landscapes, unknown);
      GroupsAhead(groups, portraits, landscapes, unknown);
      var vertical, horizontal;
      vertical, unknown := TopUp(Front(portraits, 2), 2, unknown);
      horizontal, unknown := TopUp(Front(landscapes, 3), 3, unknown);
      portraits, landscapes := Back(portraits, 2), Back(landscapes, 3);
      groups := groups + [Group(vertical, horizontal)];
    }
    Nothing();
  }

  lemma Nothing()
    ensures Grouped([], [], []) == []
  {
  }

  lemma GroupsAhead(groups: seq<Group>, p: seq<Clip>, l: seq<Clip>, u: seq<Clip>)
    requires p != [] || l != [] || u != []
    ensures var (group, left) := NextGroup(p, l, u);
            groups + Grouped(p, l, u) == (groups + [group]) + Grouped(Back(p, 2), Back(l, 3), left)
  {
    hide NextGroup, Back;
  }

  /* ---------- Every clip once, in its place ---------- */

  function Verticals(groups: seq<Group>): seq<Clip> {
    if groups == [] then [] else groups[0].vertical + Verticals(groups[1..])
  }

  function Horizontals(groups: seq<Group>): seq<Clip> {
    if groups == [] then [] else groups[0].horizontal + Horizontals(groups[1..])
  }

  /** Two upright places, three wide ones, and nobody in the wrong place. */
  predicate Fits(g: Group) {
    |g.vertical| <= 2 && |g.horizontal| <= 3 && All(g.vertical, STANDS) && All(g.horizontal, LIES)
  }

  /** May stand upright; may lie across. */
  const STANDS: Clip -> bool := (c: Clip) => c.orientation == Portrait || c.orientation.Unknown?
  const LIES: Clip -> bool := (c: Clip) =>
    c.orientation == Landscape || c.orientation == Square || c.orientation.Unknown?

  predicate All(s: seq<Clip>, f: Clip -> bool) {
    forall c :: c in s ==> f(c)
  }

  lemma AllOfPart(s: seq<Clip>, i: nat, j: nat, f: Clip -> bool)
    requires i <= j <= |s| && All(s, f)
    ensures All(s[i..j], f) && All(s[..j], f) && All(s[i..], f)
  {
  }

  lemma AllOfBoth(x: seq<Clip>, y: seq<Clip>, f: Clip -> bool)
    requires All(x, f) && All(y, f)
    ensures All(x + y, f)
  {
  }

  lemma AllWeaker(s: seq<Clip>, f: Clip -> bool, g: Clip -> bool)
    requires All(s, f) && forall c :: f(c) ==> g(c)
    ensures All(s, g)
  {
  }

  /** How often a clip occurs. */
  function Times(s: seq<Clip>, c: Clip): nat {
    if s == [] then 0 else (if s[0] == c then 1 else 0) + Times(s[1..], c)
  }

  /** A way to show exactly these clips, each as often as it is given. */
  ghost predicate Arranges(groups: seq<Group>, clips: seq<Clip>) {
    && (forall c :: Times(Verticals(groups), c) + Times(Horizontals(groups), c) == Times(clips, c))
    && (forall g :: g in groups ==> Fits(g))
  }

  lemma {:induction false} TimesAppend(x: seq<Clip>, y: seq<Clip>, c: Clip)
    ensures Times(x + y, c) == Times(x, c) + Times(y, c)
  {
    if x == [] {
      assert x + y == y;
    } else {
      assert (x + y)[1..] == x[1..] + y;
      TimesAppend(x[1..], y, c);
    }
  }

  lemma TimesCut(s: seq<Clip>, n: nat, c: Clip)
    requires n <= |s|
    ensures Times(s, c) == Times(s[..n], c) + Times(s[n..], c)
  {
    assert s == s[..n] + s[n..];
    TimesAppend(s[..n], s[n..], c);
  }

  lemma {:induction false} GroupedTimes(p: seq<Clip>, l: seq<Clip>, u: seq<Clip>, c: Clip)
    ensures var groups := Grouped(p, l, u);
            Times(Verticals(groups), c) + Times(Horizontals(groups), c) == Times(p, c) + Times(l, c) + Times(u, c)
    decreases |p| + |l| + |u|
  {
    hide Times, NextGroup, Front, Back, Verticals, Horizontals;
    NoTimes(c);
    if p != [] || l != [] || u != [] {
      var (group, left) := NextGroup(p, l, u);
      NextGroupShrinks(p, l, u);
      GroupedTimes(Back(p, 2), Back(l, 3), left, c);
      FrontTimes(p, 2, c);
      FrontTimes(l, 3, c);
      NextGroupTimes(p, l, u, c);
      FirstGroup(group, Grouped(Back(p, 2), Back(l, 3), left), c);
    }
  }

  lemma NextGroupTimes(p: seq<Clip>, l: seq<Clip>, u: seq<Clip>, c: Clip)
    ensures var (group, left) := NextGroup(p, l, u);
            Times(group.vertical, c) + Times(group.horizontal, c) + Times(left, c) ==
            Times(Front(p, 2), c) + Times(Front(l, 3), c) + Times(u, c)
  {
    hide Times, Front, Room;
    var v, h := Front(p, 2), Front(l, 3);
    var i := Room(v, 2, u);
    var j := Room(h, 3, u[i..]);
    TimesAppend(v, u[..i], c);
    TimesAppend(h, u[i..][..j], c);
    TimesCut(u, i, c);
    TimesCut(u[i..], j, c);
  }

  lemma NoTimes(c: Clip)
    ensures Times([], c) == 0 && Times(Verticals([]), c) == 0 && Times(Horizontals([]), c) == 0
  {
  }

  lemma FrontTimes(s: seq<Clip>, n: nat, c: Clip)
    ensures Times(Front(s, n), c) + Times(Back(s, n), c) == Times(s, c)
  {
    if n <= |s| { TimesCut(s, n, c); }
  }

  lemma FirstGroup(g: Group, rest: seq<Group>, c: Clip)
    ensures Times(Verticals([g] + rest), c) == Times(g.vertical, c) + Times(Verticals(rest), c)
    ensures Times(Horizontals([g] + rest), c) == Times(g.horizontal, c) + Times(Horizontals(rest), c)
  {
    hide Times;
    assert ([g] + rest)[1..] == rest;
    TimesAppend(g.vertical, Verticals(rest), c);
    TimesAppend(g.horizontal, Horizontals(rest), c);
  }

  lemma {:induction false} GroupedFits(p: seq<Clip>, l: seq<Clip>, u: seq<Clip>)
    requires All(p, PORTRAIT) && All(l, WIDE) && All(u, OTHER)
    ensures forall g :: g in Grouped(p, l, u) ==> Fits(g)
    decreases |p| + |l| + |u|
  {
    hide NextGroup, Front, Back, Fits, All;
    if p != [] || l != [] || u != [] {
      NextGroupShrinks(p, l, u);
      NextGroupFits(p, l, u);
      GroupedFits(Back(p, 2), Back(l, 3), NextGroup(p, l, u).1);
    }
  }

  lemma AllOfHalves(s: seq<Clip>, n: nat, f: Clip -> bool)
    requires All(s, f)
    ensures All(Front(s, n), f) && All(Back(s, n), f) && |Front(s, n)| <= n
  {
    if n <= |s| { AllOfPart(s, n, n, f); }
  }

  lemma NextGroupFits(p: seq<Clip>, l: seq<Clip>, u: seq<Clip>)
    requires All(p, PORTRAIT) && All(l, WIDE) && All(u, OTHER)
    ensures var (group, left) := NextGroup(p, l, u);
            Fits(group) && All(left, OTHER) && All(Back(p, 2), PORTRAIT) && All(Back(l, 3), WIDE)
  {
    hide All, Front, Back;
    AllOfHalves(p, 2, PORTRAIT);
    AllOfHalves(l, 3, WIDE);
    var v, h := Front(p, 2), Front(l, 3);
    var i := Room(v, 2, u);
    var j := Room(h, 3, u[i..]);
    AllOfPart(u, i, i, OTHER);
    AllOfPart(u[i..], j, j, OTHER);
    AllWeaker(v, PORTRAIT, STANDS);
    AllWeaker(u[..i], OTHER, STANDS);
    AllOfBoth(v, u[..i], STANDS);
    AllWeaker(h, WIDE, LIES);
    AllWeaker(u[i..][..j], OTHER, LIES);
    AllOfBoth(h, u[i..][..j], LIES);
  }

  lemma {:induction false} SplitTimes(clips: seq<Clip>, c: Clip)
    ensures Times(Filter(clips, PORTRAIT), c) + Times(Filter(clips, WIDE), c) + Times(Filter(clips, OTHER), c) ==
        Times(clips, c)
    ensures |Filter(clips, PORTRAIT)| + |Filter(clips, WIDE)| + |Filter(clips, OTHER)| == |clips|
  {
    if clips != [] { SplitTimes(clips[1..], c); }
  }

  /** Every clip is shown exactly once; portraits stand upright, wide clips lie. */
  lemma GroupsArrangeClips(clips: seq<Clip>)
    ensures Arranges(Grouped(Filter(clips, PORTRAIT), Filter(clips, WIDE), Filter(clips, OTHER)), clips)
  {
    hide Grouped, Times, Fits, Filter;
    FilterMembers(clips, PORTRAIT);
    FilterMembers(clips, WIDE);
    FilterMembers(clips, OTHER);
    var p, l, u := Filter(clips, PORTRAIT), Filter(clips, WIDE), Filter(clips, OTHER);
    GroupedFits(p, l, u);
    forall c ensures Times(Verticals(Grouped(p, l, u)), c) + Times(Horizontals(Grouped(p, l, u)), c) ==
        Times(clips, c) {
      GroupedTimes(p, l, u, c);
      SplitTimes(clips, c);
    }
  }

  /* ---------- The number of groups ---------- */

  function Ceil(a: nat, b: nat): nat
    requires b > 0
  {
    (a + b - 1) / b
  }

  /** The number of groups that p portraits, l wide and u unknown clips need. */
  function Needed(p: nat, l: nat, u: nat): nat {
    Max(Max(Ceil(p, 2), Ceil(l, 3)), Ceil(p + l + u, 5))
  }

  lemma NeededStep(p: nat, l: nat, u: nat, i: nat, j: nat)
    requires p + l + u > 0 && i == Min(u, Max(0, 2 - p)) && j == Min(u - i, Max(0, 3 - l))
    ensures Needed(p, l, u) == 1 + Needed(Max(0, p - 2), Max(0, l - 3), u - i - j)
  {
  }

  lemma {:induction false} GroupCount(p: seq<Clip>, l: seq<Clip>, u: seq<Clip>)
    ensures |Grouped(p, l, u)| == Needed(|p|, |l|, |u|)
    decreases |p| + |l| + |u|
  {
    hide Needed;
    if p == [] && l == [] && u == [] {
      NeededNone();
    } else {
      var v, h := Front(p, 2), Front(l, 3);
      var i := Room(v, 2, u);
      var j := Room(h, 3, u[i..]);
      NextGroupShrinks(p, l, u);
      NeededStep(|p|, |l|, |u|, i, j);
      GroupCount(Back(p, 2), Back(l, 3), NextGroup(p, l, u).1);
    }
  }

  lemma NeededNone()
    ensures Needed(0, 0, 0) == 0
  {
  }

  lemma {:induction false} SlotBounds(groups: seq<Group>)
    requires forall g :: g in groups ==> Fits(g)
    ensures |Verticals(groups)| <= 2 * |groups| && |Horizontals(groups)| <= 3 * |groups|
    ensures All(Verticals(groups), STANDS) && All(Horizontals(groups), LIES)
  {
    if groups != [] {
      assert Fits(groups[0]);
      forall g | g in groups[1..] ensures Fits(g) { assert g in groups; }
      SlotBounds(groups[1..]);
      AllOfBoth(groups[0].vertical, Verticals(groups[1..]), STANDS);
      AllOfBoth(groups[0].horizontal, Horizontals(groups[1..]), LIES);
    }
  }

  lemma {:induction false} Occurs(s: seq<Clip>, c: Clip) returns (k: nat)
    requires Times(s, c) > 0
    ensures k < |s| && s[k] == c
  {
    if s[0] == c {
      k := 0;
    } else {
      k := Occurs(s[1..], c);
      k := k + 1;
    }
  }

  lemma HeadOccurs(s: seq<Clip>)
    ensures s != [] ==> Times(s, s[0]) > 0
  {
  }

  /** The number of elements that satisfy a condition does not depend on their order. */
  lemma {:induction false} SameCount(x: seq<Clip>, y: seq<Clip>, f: Clip -> bool)
    requires forall c :: Times(x, c) == Times(y, c)
    ensures |Filter(x, f)| == |Filter(y, f)| && |x| == |y|
    decreases |x|
  {
    HeadOccurs(y);
    if x != [] {
      var e := x[0];
      assert Times(y, e) == Times(x, e) > 0;
      var k := Occurs(y, e);
      var rest := y[..k] + y[k + 1..];
      forall c ensures Times(x[1..], c) == Times(rest, c) {
        TimesWithout(y, k, c);
        assert Times(x, c) == (if e == c then 1 else 0) + Times(x[1..], c);
      }
      SameCount(x[1..], rest, f);
      FilterAround(y[..k], e, y[k + 1..], f);
      assert y[..k] + [e] + y[k + 1..] == y;
    }
  }

  lemma TimesWithout(s: seq<Clip>, k: nat, c: Clip)
    requires k < |s|
    ensures Times(s, c) == Times(s[..k] + s[k + 1..], c) + if s[k] == c then 1 else 0
  {
    TimesCut(s, k, c);
    TimesAppend(s[..k], s[k + 1..], c);
    assert s[k..][1..] == s[k + 1..];
  }

  lemma FilterAround<T(!new)>(x: seq<T>, e: T, y: seq<T>, f: T -> bool)
    ensures |Filter(x + [e] + y, f)| == |Filter(x + y, f)| + if f(e) then 1 else 0
  {
    assert x + [e] + y == x + ([e] + y) && ([e] + y)[1..] == y;
    FilterAppend(x, [e] + y, f);
    FilterAppend(x, y, f);
  }

  /** No arrangement of the clips into such groups has fewer of them. */
  lemma NoArrangementIsShorter(clips: seq<Clip>, groups: seq<Group>)
    requires Arranges(groups, clips)
    ensures |Grouped(Filter(clips, PORTRAIT), Filter(clips, WIDE), Filter(clips, OTHER))| <= |groups|
    ensures |Grouped(Filter(clips, PORTRAIT), Filter(clips, WIDE), Filter(clips, OTHER))| ==
            Needed(|Filter(clips, PORTRAIT)|, |Filter(clips, WIDE)|, |Filter(clips, OTHER)|)
  {
    hide Grouped, Times, Filter, Needed;
    var v, h := Verticals(groups), Horizontals(groups);
    SlotBounds(groups);
    forall c ensures Times(v + h, c) == Times(clips, c) { TimesAppend(v, h, c); }
    SameCount(v + h, clips, PORTRAIT);
    SameCount(v + h, clips, WIDE);
    FilterAppend(v, h, PORTRAIT);
    FilterAppend(v, h, WIDE);
    FilterNone(h, PORTRAIT);
    FilterNone(v, WIDE);
    FilterIsShorter(v, PORTRAIT);
    FilterIsShorter(h, WIDE);
    var p, l, u := Filter(clips, PORTRAIT), Filter(clips, WIDE), Filter(clips, OTHER);
    SplitTimes(clips, Clip(0, Square));
    GroupCount(p, l, u);
    FewGroups(|p|, |l|, |u|, |groups|);
  }

  lemma FewGroups(p: nat, l: nat, u: nat, n: nat)
    requires p <= 2 * n && l <= 3 * n && p + l + u <= 5 * n
    ensures Needed(p, l, u) <= n
  {
  }
}
