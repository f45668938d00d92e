/** The client's pathfinder: `manhattan`, `neighbors` and `findPath`, an A*
    search over the 4-neighbour grid with the Manhattan heuristic, unit step
    cost, an open list that is stably re-sorted by f before every pop, and the
    maps `came`, `g` and `f`. Positions stand for their own map keys (the
    source keys its maps by the string "x,y"). */
module Pathfinding {
  import opened Tiles

  /** The score read for a cell that has none yet (`?? 1e9`). */
  const Big: int := 1_000_000_000

  function Abs(n: int): nat { if n < 0 then -n else n }

  function Manhattan(a: Vec2, b: Vec2): nat
  {
    Abs(a.x - b.x) + Abs(a.y - b.y)
  }

  /** The distance is symmetric, and zero exactly between a cell and itself. */
  lemma ManhattanZero(a: Vec2, b: Vec2)
    ensures Manhattan(a, b) == Manhattan(b, a)
    ensures Manhattan(a, b) == 0 <==> a == b
  {
  }

  // ----- neighbors -----

  /** The four directions in the order `neighbors` tries them. */
  const Dirs: seq<Vec2> := [Vec2(1, 0), Vec2(-1, 0), Vec2(0, 1), Vec2(0, -1)]

  /** One step in direction d, clamped into the box [0, W-1] x [0, H-1]. */
  function Candidate(g: Grid, v: Vec2, d: Vec2): Vec2
  {
    Vec2(Clamp(v.x + d.x, 0, Width(g) - 1), Clamp(v.y + d.y, 0, Height(g) - 1))
  }

  function KeepPassable(g: Grid, c: Vec2): seq<Vec2>
  {
    if Passable(g, c) then [c] else []
  }

  /** The passable candidates for the first n directions, in order. */
  function NeighborsUpTo(g: Grid, v: Vec2, n: nat): seq<Vec2>
    requires n <= |Dirs|
  {
    if n == 0 then [] else NeighborsUpTo(g, v, n - 1) + KeepPassable(g, Candidate(g, v, Dirs[n - 1]))
  }

  /** `neighbors(v)`. */
  function Neighbors(g: Grid, v: Vec2): seq<Vec2>
  {
    NeighborsUpTo(g, v, |Dirs|)
  }

  /** The first n directions give at most n neighbours, all passable. */
  lemma {:induction false} NeighborsUpToBound(g: Grid, v: Vec2, n: nat)
    requires n <= |Dirs|
    ensures |NeighborsUpTo(g, v, n)| <= n
    ensures forall i :: 0 <= i < |NeighborsUpTo(g, v, n)| ==> Passable(g, NeighborsUpTo(g, v, n)[i])
  {
    if n > 0 {
      NeighborsUpToBound(g, v, n - 1);
    }
  }

  /** A cell has at most four neighbours, and each of them is passable. */
  lemma NeighborsAtMostFour(g: Grid, v: Vec2)
    ensures |Neighbors(g, v)| <= 4
    ensures forall i :: 0 <= i < |Neighbors(g, v)| ==> Passable(g, Neighbors(g, v)[i])
  {
    NeighborsUpToBound(g, v, |Dirs|);
  }

  /** The cells `neighbors` can return: fixed points of its clamping. */
  predicate InBox(g: Grid, v: Vec2)
  {
    Clamp(v.x, 0, Width(g) - 1) == v.x && Clamp(v.y, 0, Height(g) - 1) == v.y
  }

  lemma NeighborsMembers(g: Grid, v: Vec2)
    ensures forall nb :: nb in Neighbors(g, v) <==>
      Passable(g, nb) &&
      (nb == Candidate(g, v, Dirs[0]) || nb == Candidate(g, v, Dirs[1]) ||
       nb == Candidate(g, v, Dirs[2]) || nb == Candidate(g, v, Dirs[3]))
  {
    var k0, k1 := KeepPassable(g, Candidate(g, v, Dirs[0])), KeepPassable(g, Candidate(g, v, Dirs[1]));
    var k2, k3 := KeepPassable(g, Candidate(g, v, Dirs[2])), KeepPassable(g, Candidate(g, v, Dirs[3]));
    assert NeighborsUpTo(g, v, 1) == [] + k0;
    assert NeighborsUpTo(g, v, 2) == NeighborsUpTo(g, v, 1) + k1;
    assert NeighborsUpTo(g, v, 3) == NeighborsUpTo(g, v, 2) + k2;
    assert Neighbors(g, v) == NeighborsUpTo(g, v, 3) + k3;
  }

  /** Every neighbour is passable and inside the box, and from a cell of the
      box it is at most one step away (zero when clamping kept it in place). */
  lemma NeighborStep(g: Grid, v: Vec2, nb: Vec2)
    requires nb in Neighbors(g, v)
    ensures Passable(g, nb) && InBox(g, nb)
    ensures InBox(g, v) ==> Manhattan(v, nb) <= 1
    ensures InBox(g, v) && nb != v ==> Manhattan(v, nb) == 1
  {
    NeighborsMembers(g, v);
  }

  /** Conversely, a passable cell of the box next to a cell of the box is
      one of its neighbours. */
  lemma AdjacentIsNeighbor(g: Grid, v: Vec2, u: Vec2)
    requires InBox(g, v) && InBox(g, u) && Passable(g, u) && Manhattan(v, u) == 1
    ensures u in Neighbors(g, v)
  {
    NeighborsMembers(g, v);
    if u.x == v.x + 1 {
      assert u == Candidate(g, v, Dirs[0]);
    } else if u.x == v.x - 1 {
      assert u == Candidate(g, v, Dirs[1]);
    } else if u.y == v.y + 1 {
      assert u == Candidate(g, v, Dirs[2]);
    } else {
      assert u == Candidate(g, v, Dirs[3]);
    }
  }

  /** On a grid whose rows have equal length every passable cell is in the box. */
  lemma PassableInBox(g: Grid, v: Vec2)
    requires Rectangular(g) && Passable(g, v)
    ensures InBox(g, v)
  {
  }

  /** `neighbors` with its loop over the four directions. */
  method CollectNeighbors(g: Grid, v: Vec2) returns (out: seq<Vec2>)
    ensures out == Neighbors(g, v)
  {
    out := [];
    var i := 0;
    while i < |Dirs|
      invariant 0 <= i <= |Dirs|
      invariant out == NeighborsUpTo(g, v, i)
    {
      var n := Candidate(g, v, Dirs[i]);
      if Passable(g, n) {
        out := out + [n];
      }
      i := i + 1;
    }
  }

  // ----- routes -----

  /** r is a walk that leaves s: each cell is a neighbour of the one before
      it (s for the first). */
  predicate IsRoute(g: Grid, s: Vec2, r: seq<Vec2>)
    decreases |r|
  {
    r == [] || (r[0] in Neighbors(g, s) && IsRoute(g, r[0], r[1..]))
  }

  /** A prefix of a route is a route. */
  lemma {:induction false} RoutePrefix(g: Grid, s: Vec2, a: seq<Vec2>, b: seq<Vec2>)
    requires IsRoute(g, s, a + b)
    ensures IsRoute(g, s, a)
    decreases |a|
  {
    if a != [] {
      assert (a + b)[0] == a[0] && (a + b)[1..] == a[1..] + b;
      RoutePrefix(g, a[0], a[1..], b);
    }
  }

  function Last(r: seq<Vec2>): Vec2
    requires r != []
  {
    r[|r| - 1]
  }

  /** Every cell of a route is passable and in the box. */
  lemma {:induction false} RouteCells(g: Grid, s: Vec2, r: seq<Vec2>)
    requires IsRoute(g, s, r)
    ensures forall i :: 0 <= i < |r| ==> Passable(g, r[i]) && InBox(g, r[i])
    decreases |r|
  {
    if r != [] {
      NeighborStep(g, s, r[0]);
      RouteCells(g, r[0], r[1..]);
      forall i | 1 <= i < |r|
        ensures Passable(g, r[i]) && InBox(g, r[i])
      {
        assert r[i] == r[1..][i - 1];
      }
    }
  }

  /** From a start inside the box, a route with no cell repeating its
      predecessor moves exactly one grid step at a time. */
  lemma {:induction false} RouteSteps(g: Grid, s: Vec2, r: seq<Vec2>)
    requires InBox(g, s) && IsRoute(g, s, r)
    requires r != [] ==> r[0] != s
    requires forall i :: 0 < i < |r| ==> r[i] != r[i - 1]
    ensures r != [] ==> Manhattan(s, r[0]) == 1
    ensures forall i :: 0 < i < |r| ==> Manhattan(r[i - 1], r[i]) == 1
    decreases |r|
  {
    if r != [] {
      NeighborStep(g, s, r[0]);
      var t := r[1..];
      forall i | 0 < i < |t| ensures t[i] != t[i - 1] {
        assert t[i] == r[i + 1] && t[i - 1] == r[i];
      }
      RouteSteps(g, r[0], t);
      forall i | 0 < i < |r|
        ensures Manhattan(r[i - 1], r[i]) == 1
      {
        if i > 1 {
          assert r[i - 1] == t[i - 2] && r[i] == t[i - 1];
        }
      }
    }
  }

  /** A walk through passable cells of the box, one grid step at a time, is
      a route; so on a rectangular grid every 4-connected all-grass walk is. */
  lemma {:induction false} GridWalkIsRoute(g: Grid, s: Vec2, r: seq<Vec2>)
    requires InBox(g, s)
    requires forall i :: 0 <= i < |r| ==> Passable(g, r[i]) && InBox(g, r[i])
    requires r != [] ==> Manhattan(s, r[0]) == 1
    requires forall i :: 0 < i < |r| ==> Manhattan(r[i - 1], r[i]) == 1
    ensures IsRoute(g, s, r)
    decreases |r|
  {
    if r != [] {
      AdjacentIsNeighbor(g, s, r[0]);
      var t := r[1..];
      forall i | 0 < i < |t| ensures Manhattan(t[i - 1], t[i]) == 1 {
        assert t[i - 1] == r[i] && t[i] == r[i + 1];
      }
      GridWalkIsRoute(g, r[0], t);
    }
  }

  /** Along a route from a cell of the box the Manhattan distance grows by at
      most one per step: the heuristic never overestimates. */
  lemma {:induction false} RouteLength(g: Grid, s: Vec2, r: seq<Vec2>)
    requires InBox(g, s) && IsRoute(g, s, r) && r != []
    ensures Manhattan(s, Last(r)) <= |r|
    decreases |r|
  {
    NeighborStep(g, s, r[0]);
    if |r| > 1 {
      RouteLength(g, r[0], r[1..]);
      assert Last(r[1..]) == Last(r);
    }
  }

  // ----- the open list and its stable sort -----

  /** `m.get(key(k)) ?? 1e9` */
  function Score(m: map<Vec2, int>, k: Vec2): int
  {
    if k in m then m[k] else Big
  }

  predicate SortedBy(s: seq<Vec2>, f: map<Vec2, int>)
  {
    forall i, j :: 0 <= i < j < |s| ==> Score(f, s[i]) <= Score(f, s[j])
  }

  /** Inserts x before the first element whose score is not smaller, so x
      goes ahead of the equal-scored elements that followed it. */
  function Insert(x: Vec2, s: seq<Vec2>, f: map<Vec2, int>): (r: seq<Vec2>)
    ensures multiset(r) == multiset(s) + multiset{x}
    ensures |r| == |s| + 1
    ensures forall j :: 0 <= j < |r| ==> r[j] == x || exists i :: 0 <= i < |s| && r[j] == s[i]
  {
    if s == [] || Score(f, x) <= Score(f, s[0]) then [x] + s
    else
      assert s == [s[0]] + s[1..];
      [s[0]] + Insert(x, s[1..], f)
  }

  lemma {:induction false} InsertSorted(x: Vec2, s: seq<Vec2>, f: map<Vec2, int>)
    requires SortedBy(s, f)
    ensures SortedBy(Insert(x, s, f), f)
  {
    if s != [] && Score(f, x) > Score(f, s[0]) {
      InsertSorted(x, s[1..], f);
      var rest := Insert(x, s[1..], f);
      assert Insert(x, s, f) == [s[0]] + rest;
      forall j | 0 <= j < |rest| ensures Score(f, s[0]) <= Score(f, rest[j]) {
        if rest[j] != x {
          var i :| 0 <= i < |s[1..]| && rest[j] == s[1..][i];
          assert s[1..][i] == s[i + 1];
        }
      }
    }
  }

  /** The elements of s whose score is v, in their order in s. */
  function WithScore(s: seq<Vec2>, f: map<Vec2, int>, v: int): seq<Vec2>
  {
    if s == [] then [] else (if Score(f, s[0]) == v then [s[0]] else []) + WithScore(s[1..], f, v)
  }

  lemma WithScoreCons(a: Vec2, t: seq<Vec2>, f: map<Vec2, int>, v: int)
    ensures WithScore([a] + t, f, v) == (if Score(f, a) == v then [a] else []) + WithScore(t, f, v)
  {
    assert ([a] + t)[0] == a && ([a] + t)[1..] == t;
  }

  lemma SwapEmpty(a: seq<Vec2>, b: seq<Vec2>, c: seq<Vec2>)
    requires a == [] || b == []
    ensures a + (b + c) == b + (a + c)
  {
  }

  /** Insertion puts x ahead of every element of equal score. */
  lemma {:induction false} InsertStable(x: Vec2, s: seq<Vec2>, f: map<Vec2, int>, v: int)
    ensures WithScore(Insert(x, s, f), f, v) == (if Score(f, x) == v then [x] else []) + WithScore(s, f, v)
  {
    var mine := if Score(f, x) == v then [x] else [];
    if s == [] || Score(f, x) <= Score(f, s[0]) {
      assert Insert(x, s, f) == [x] + s;
      WithScoreCons(x, s, f, v);
    } else {
      var rest := Insert(x, s[1..], f);
      var here := if Score(f, s[0]) == v then [s[0]] else [];
      assert Insert(x, s, f) == [s[0]] + rest;
      WithScoreCons(s[0], rest, f, v);
      InsertStable(x, s[1..], f, v);
      SwapEmpty(here, mine, WithScore(s[1..], f, v));
      WithScoreCons(s[0], s[1..], f, v);
      assert [s[0]] + s[1..] == s;
    }
  }

  /** `open.sort((a, b) => f(a) - f(b))`: a sorted permutation of the open
      list. */
  function SortByScore(s: seq<Vec2>, f: map<Vec2, int>): (r: seq<Vec2>)
    ensures multiset(r) == multiset(s) && |r| == |s|
    ensures SortedBy(r, f)
  {
    if s == [] then [] else
      assert s == [s[0]] + s[1..];
      InsertSorted(s[0], SortByScore(s[1..], f), f);
      Insert(s[0], SortByScore(s[1..], f), f)
  }

  /** The sort is stable, as `Array.prototype.sort` is: the elements of any
      one score come out in the order they went in, so ties on f are popped
      first come, first served. */
  lemma {:induction false} SortByScoreStable(s: seq<Vec2>, f: map<Vec2, int>, v: int)
    ensures WithScore(SortByScore(s, f), f, v) == WithScore(s, f, v)
  {
    if s != [] {
      SortByScoreStable(s[1..], f, v);
      InsertStable(s[0], SortByScore(s[1..], f), f, v);
    }
  }

  // ----- termination measure -----

  function RowSum(m: map<Vec2, int>, y: int, n: nat): int
  {
    if n == 0 then 0 else RowSum(m, y, n - 1) + Score(m, Vec2(n - 1, y))
  }

  function BoxSum(m: map<Vec2, int>, rows: nat, cols: nat): int
  {
    if rows == 0 then 0 else BoxSum(m, rows - 1, cols) + RowSum(m, rows - 1, cols)
  }

  /** The sum of the g-scores (unknown ones read as 1e9) over every cell a
      neighbour can be. Every improvement lowers it. */
  function Potential(grid: Grid, m: map<Vec2, int>): int
  {
    BoxSum(m, Height(grid), if Width(grid) > 0 then Width(grid) else 1)
  }

  lemma {:induction false} RowSumNonNegative(m: map<Vec2, int>, y: int, n: nat)
    requires ScoresOk(m)
    ensures RowSum(m, y, n) >= 0
  {
    if n > 0 {
      RowSumNonNegative(m, y, n - 1);
    }
  }

  lemma {:induction false} PotentialNonNegative(grid: Grid, m: map<Vec2, int>)
    requires ScoresOk(m)
    ensures Potential(grid, m) >= 0
  {
    BoxSumNonNegative(m, Height(grid), if Width(grid) > 0 then Width(grid) else 1);
  }

  lemma {:induction false} BoxSumNonNegative(m: map<Vec2, int>, rows: nat, cols: nat)
    requires ScoresOk(m)
    ensures BoxSum(m, rows, cols) >= 0
  {
    if rows > 0 {
      BoxSumNonNegative(m, rows - 1, cols);
      RowSumNonNegative(m, rows - 1, cols);
    }
  }

  ghost predicate Below(a: map<Vec2, int>, b: map<Vec2, int>)
  {
    forall k :: Score(a, k) <= Score(b, k)
  }

  lemma {:induction false} RowSumBelow(a: map<Vec2, int>, b: map<Vec2, int>, y: int, n: nat, x: int)
    requires Below(a, b)
    ensures RowSum(a, y, n) <= RowSum(b, y, n)
    ensures 0 <= x < n && Score(a, Vec2(x, y)) < Score(b, Vec2(x, y)) ==> RowSum(a, y, n) < RowSum(b, y, n)
  {
    if n > 0 {
      RowSumBelow(a, b, y, n - 1, x);
    }
  }

  lemma {:induction false} BoxSumBelow(a: map<Vec2, int>, b: map<Vec2, int>, rows: nat, cols: nat, k: Vec2)
    requires Below(a, b)
    ensures BoxSum(a, rows, cols) <= BoxSum(b, rows, cols)
    ensures 0 <= k.y < rows && 0 <= k.x < cols && Score(a, k) < Score(b, k) ==>
              BoxSum(a, rows, cols) < BoxSum(b, rows, cols)
  {
    if rows > 0 {
      BoxSumBelow(a, b, rows - 1, cols, k);
      RowSumBelow(a, b, rows - 1, cols, k.x);
    }
  }

  lemma PotentialDrop(grid: Grid, a: map<Vec2, int>, b: map<Vec2, int>, k: Vec2)
    requires Below(a, b) && InBox(grid, k) && Passable(grid, k) && Score(a, k) < Score(b, k)
    ensures Potential(grid, a) < Potential(grid, b)
  {
    BoxSumBelow(a, b, Height(grid), if Width(grid) > 0 then Width(grid) else 1, k);
  }

  // ----- the search invariant -----

  ghost predicate ScoresOk(g: map<Vec2, int>)
  {
    forall k :: k in g ==> 0 <= g[k] < Big
  }

  /** `came` links every scored cell but the start to a neighbour-parent with
      a strictly smaller g. */
  ghost predicate CameOk(grid: Grid, start: Vec2, came: map<Vec2, Vec2>, g: map<Vec2, int>)
  {
    && start in g && g[start] == 0 && came.Keys == g.Keys - {start}
    && (forall k :: k in came ==>
          k in g && came[k] in g && g[came[k]] < g[k] && k in Neighbors(grid, came[k]))
  }

  ghost predicate FOk(goal: Vec2, g: map<Vec2, int>, f: map<Vec2, int>)
  {
    forall k :: k in g ==> k in f && f[k] == g[k] + Manhattan(k, goal)
  }

  ghost predicate OpenScored(open: seq<Vec2>, g: map<Vec2, int>)
  {
    forall k :: k in open ==> k in g
  }

  /** Every scored cell that is not open (and not in `skip`) has had all its
      neighbours relaxed against its current g. */
  ghost predicate ClosedRelaxed(grid: Grid, open: seq<Vec2>, g: map<Vec2, int>, skip: set<Vec2>)
  {
    forall k {:trigger Neighbors(grid, k)} :: k in g && k !in open && k !in skip ==>
      forall nb :: nb in Neighbors(grid, k) ==> Score(g, nb) <= g[k] + 1
  }

  ghost predicate SearchInv(grid: Grid, start: Vec2, goal: Vec2, open: seq<Vec2>,
                            came: map<Vec2, Vec2>, g: map<Vec2, int>, f: map<Vec2, int>)
  {
    && ScoresOk(g) && CameOk(grid, start, came, g) && FOk(goal, g, f) && OpenScored(open, g)
    && ClosedRelaxed(grid, open, g, {})
    && (goal in g ==> goal in open)
    && (start in open ==> open == [start] && g.Keys == {start})
  }

  /** Walking a route from a closed cell with g <= d, the first cell that is
      still open has f <= d + |r|. */
  lemma {:induction false} OpenCellOnRoute(grid: Grid, goal: Vec2, s: Vec2, r: seq<Vec2>, open: seq<Vec2>,
                                           g: map<Vec2, int>, f: map<Vec2, int>, d: nat) returns (v: Vec2)
    requires ScoresOk(g) && FOk(goal, g, f) && ClosedRelaxed(grid, open, g, {})
    requires s in g && g[s] <= d && s !in open
    requires IsRoute(grid, s, r) && r != [] && Last(r) == goal && goal in open
    requires d + |r| < Big
    ensures v in open && v in f && f[v] <= d + |r|
    decreases |r|
  {
    var n := r[0];
    assert Score(g, n) <= g[s] + 1;
    NeighborStep(grid, s, n);
    if n in open {
      v := n;
      if |r| > 1 {
        RouteLength(grid, n, r[1..]);
        assert Last(r[1..]) == goal;
      }
    } else {
      assert |r| > 1;
      assert Last(r[1..]) == goal;
      v := OpenCellOnRoute(grid, goal, n, r[1..], open, g, f, d + 1);
    }
  }

  /** With nothing open, every cell of a short enough route is scored. */
  lemma {:induction false} RouteReached(grid: Grid, s: Vec2, r: seq<Vec2>, g: map<Vec2, int>, d: nat)
    requires ScoresOk(g) && ClosedRelaxed(grid, [], g, {})
    requires s in g && g[s] <= d
    requires IsRoute(grid, s, r) && r != [] && d + |r| < Big
    ensures Last(r) in g
    decreases |r|
  {
    var n := r[0];
    assert Score(g, n) <= g[s] + 1;
    if |r| > 1 {
      RouteReached(grid, n, r[1..], g, d + 1);
      assert Last(r[1..]) == Last(r);
    }
  }

  lemma SortedMembers(s: seq<Vec2>, f: map<Vec2, int>)
    ensures forall k :: k in SortByScore(s, f) <==> k in s
  {
    var sorted := SortByScore(s, f);
    forall k ensures k in sorted <==> k in s {
      assert k in sorted <==> k in multiset(sorted);
    }
  }

  lemma InTail(s: seq<Vec2>, k: Vec2)
    requires k in s && k != s[0]
    ensures k in s[1..]
  {
    var i :| 0 <= i < |s| && s[i] == k;
    assert s[1..][i - 1] == k;
  }

  // ----- findPath -----

  /** The search invariant while the neighbours of `current`, just shifted
      off the open list, are being relaxed: only `current` may still have
      unrelaxed neighbours. */
  ghost predicate Expanding(grid: Grid, start: Vec2, goal: Vec2, current: Vec2, open: seq<Vec2>,
                            came: map<Vec2, Vec2>, g: map<Vec2, int>, f: map<Vec2, int>)
  {
    && current in g
    && ScoresOk(g) && CameOk(grid, start, came, g) && FOk(goal, g, f) && OpenScored(open, g)
    && (goal in g ==> goal in open) && start !in open
    && ClosedRelaxed(grid, open, g, {current})
  }

  /** Shifting the first cell off the sorted open list leaves that cell to be
      expanded; everything else stays as the search invariant had it. */
  lemma PopKeeps(grid: Grid, start: Vec2, goal: Vec2, before: seq<Vec2>,
                 came: map<Vec2, Vec2>, g: map<Vec2, int>, f: map<Vec2, int>)
    requires SearchInv(grid, start, goal, before, came, g, f) && before != []
    requires SortByScore(before, f)[0] != goal
    ensures Expanding(grid, start, goal, SortByScore(before, f)[0], SortByScore(before, f)[1..], came, g, f)
  {
    var sorted := SortByScore(before, f);
    var current := sorted[0];
    var open := sorted[1..];
    SortedMembers(before, f);
    assert forall k :: k in before && k != current ==> k in open by {
      forall k | k in before && k != current ensures k in open {
        InTail(sorted, k);
      }
    }
    assert forall k :: k in open ==> k in sorted;
    if start in before {
      assert multiset(sorted) == multiset{start};
      assert |sorted| == 1;
    }
  }

  /** One relaxation `came.set(nb, current); g.set(nb, tentative);
      f.set(nb, tentative + manhattan(nb, goal))`, with nb pushed when it is
      not open, keeps the invariant and lowers the potential. */
  lemma RelaxKeeps(grid: Grid, start: Vec2, goal: Vec2, current: Vec2, nb: Vec2,
                   open: seq<Vec2>, came: map<Vec2, Vec2>, g: map<Vec2, int>, f: map<Vec2, int>,
                   open': seq<Vec2>, came': map<Vec2, Vec2>, g': map<Vec2, int>, f': map<Vec2, int>)
    requires Expanding(grid, start, goal, current, open, came, g, f)
    requires nb in Neighbors(grid, current) && g[current] + 1 < Score(g, nb)
    requires open' == (if nb in open then open else open + [nb])
    requires came' == came[nb := current] && g' == g[nb := g[current] + 1]
    requires f' == f[nb := g[current] + 1 + Manhattan(nb, goal)]
    ensures Expanding(grid, start, goal, current, open', came', g', f')
    ensures Below(g', g) && g'[current] == g[current] && Score(g', nb) == g[current] + 1
    ensures Potential(grid, g') < Potential(grid, g)
  {
    NeighborStep(grid, current, nb);
    assert nb != start && nb != current;
    assert forall k :: k in open' <==> k in open || k == nb;
    assert Below(g', g);
    PotentialDrop(grid, g', g, nb);
  }

  /** The state of the neighbour loop after its first i neighbours: the
      invariant of `Expanding`, those neighbours relaxed, and the potential
      either lower than on entry or the state untouched. */
  ghost predicate ExpandLoop(grid: Grid, start: Vec2, goal: Vec2, current: Vec2, nbs: seq<Vec2>, i: int,
                             open0: seq<Vec2>, g0: map<Vec2, int>,
                             open: seq<Vec2>, came: map<Vec2, Vec2>, g: map<Vec2, int>, f: map<Vec2, int>)
  {
    && 0 <= i <= |nbs| && nbs == Neighbors(grid, current)
    && Expanding(grid, start, goal, current, open, came, g, f)
    && current in g0 && g[current] == g0[current]
    && (forall j :: 0 <= j < i ==> Score(g, nbs[j]) <= g[current] + 1)
    && (Potential(grid, g) < Potential(grid, g0) || (g == g0 && open == open0))
  }

  lemma RelaxStep(grid: Grid, start: Vec2, goal: Vec2, current: Vec2, nbs: seq<Vec2>, i: int,
                  open0: seq<Vec2>, g0: map<Vec2, int>,
                  open: seq<Vec2>, came: map<Vec2, Vec2>, g: map<Vec2, int>, f: map<Vec2, int>,
                  open': seq<Vec2>, came': map<Vec2, Vec2>, g': map<Vec2, int>, f': map<Vec2, int>)
    requires ExpandLoop(grid, start, goal, current, nbs, i, open0, g0, open, came, g, f) && i < |nbs|
    requires g[current] + 1 < Score(g, nbs[i])
    requires open' == (if nbs[i] in open then open else open + [nbs[i]])
    requires came' == came[nbs[i] := current] && g' == g[nbs[i] := g[current] + 1]
    requires f' == f[nbs[i] := g[current] + 1 + Manhattan(nbs[i], goal)]
    ensures ExpandLoop(grid, start, goal, current, nbs, i + 1, open0, g0, open', came', g', f')
  {
    RelaxKeeps(grid, start, goal, current, nbs[i], open, came, g, f, open', came', g', f');
    forall j | 0 <= j < i + 1 ensures Score(g', nbs[j]) <= g'[current] + 1 {
      assert Score(g', nbs[j]) <= Score(g, nbs[j]);
    }
  }

  lemma SkipStep(grid: Grid, start: Vec2, goal: Vec2, current: Vec2, nbs: seq<Vec2>, i: int,
                 open0: seq<Vec2>, g0: map<Vec2, int>,
                 open: seq<Vec2>, came: map<Vec2, Vec2>, g: map<Vec2, int>, f: map<Vec2, int>)
    requires ExpandLoop(grid, start, goal, current, nbs, i, open0, g0, open, came, g, f) && i < |nbs|
    requires g[current] + 1 >= Score(g, nbs[i])
    ensures ExpandLoop(grid, start, goal, current, nbs, i + 1, open0, g0, open, came, g, f)
  {
  }

  /** Once every neighbour of `current` scores at most g(current) + 1, the
      full search invariant is back. */
  lemma ExpandDone(grid: Grid, start: Vec2, goal: Vec2, current: Vec2, nbs: seq<Vec2>,
                   open0: seq<Vec2>, g0: map<Vec2, int>,
                   open: seq<Vec2>, came: map<Vec2, Vec2>, g: map<Vec2, int>, f: map<Vec2, int>)
    requires ExpandLoop(grid, start, goal, current, nbs, |nbs|, open0, g0, open, came, g, f)
    ensures SearchInv(grid, start, goal, open, came, g, f)
    ensures Potential(grid, g) < Potential(grid, g0) || (g == g0 && open == open0)
  {
    forall nb | nb in Neighbors(grid, current) ensures Score(g, nb) <= g[current] + 1 {
      var j :| 0 <= j < |nbs| && nbs[j] == nb;
    }
  }

  /** When the goal comes first in the sorted open list, its g is no longer
      than any route to it: the open cell the route must cross has f at most
      the route's length, and the goal's f (= its g) is the smallest. */
  lemma GoalPopBound(grid: Grid, start: Vec2, goal: Vec2, before: seq<Vec2>,
                     came: map<Vec2, Vec2>, g: map<Vec2, int>, f: map<Vec2, int>, r: seq<Vec2>)
    requires SearchInv(grid, start, goal, before, came, g, f) && before != []
    requires SortByScore(before, f)[0] == goal && start != goal
    requires IsRoute(grid, start, r) && r != [] && Last(r) == goal && |r| < Big
    ensures goal in g && g[goal] <= |r|
  {
    var sorted := SortByScore(before, f);
    SortedMembers(before, f);
    if start in before {
      assert false;
    }
    var v := OpenCellOnRoute(grid, goal, start, r, before, g, f, 0);
    var j :| 0 <= j < |sorted| && sorted[j] == v;
    assert Score(f, sorted[0]) <= Score(f, sorted[j]);
  }

  lemma GoalPopOptimal(grid: Grid, start: Vec2, goal: Vec2, before: seq<Vec2>,
                       came: map<Vec2, Vec2>, g: map<Vec2, int>, f: map<Vec2, int>)
    requires SearchInv(grid, start, goal, before, came, g, f) && before != []
    requires SortByScore(before, f)[0] == goal && start != goal
    ensures goal in g
    ensures forall r :: IsRoute(grid, start, r) && r != [] && Last(r) == goal && |r| < Big ==> g[goal] <= |r|
  {
    SortedMembers(before, f);
    forall r | IsRoute(grid, start, r) && r != [] && Last(r) == goal && |r| < Big
      ensures g[goal] <= |r|
    {
      GoalPopBound(grid, start, goal, before, came, g, f, r);
    }
  }

  /** When the open list runs empty without the goal being popped, the
      goal was never scored, so no route shorter than the sentinel reaches it. */
  lemma NoRouteLeft(grid: Grid, start: Vec2, goal: Vec2, came: map<Vec2, Vec2>,
                    g: map<Vec2, int>, f: map<Vec2, int>)
    requires SearchInv(grid, start, goal, [], came, g, f)
    ensures forall r :: IsRoute(grid, start, r) && r != [] && Last(r) == goal ==> |r| >= Big
  {
    forall r | IsRoute(grid, start, r) && r != [] && Last(r) == goal
      ensures |r| >= Big
    {
      if |r| < Big {
        RouteReached(grid, start, r, g, 0);
      }
    }
  }

  /** The body of the `for (const nb of neighbors(current))` loop, run after
      `current` has been shifted off the open list. Afterwards the search
      invariant holds again, and either some g-score dropped or nothing
      changed at all. */
  method Expand(grid: Grid, start: Vec2, goal: Vec2, current: Vec2, open0: seq<Vec2>,
                came0: map<Vec2, Vec2>, g0: map<Vec2, int>, f0: map<Vec2, int>)
    returns (open: seq<Vec2>, came: map<Vec2, Vec2>, g: map<Vec2, int>, f: map<Vec2, int>)
    requires Expanding(grid, start, goal, current, open0, came0, g0, f0)
    ensures SearchInv(grid, start, goal, open, came, g, f)
    ensures Potential(grid, g) < Potential(grid, g0) || (g == g0 && open == open0)
  {
    open, came, g, f := open0, came0, g0, f0;
    var nbs := CollectNeighbors(grid, current);
    var i := 0;
    while i < |nbs|
      invariant ExpandLoop(grid, start, goal, current, nbs, i, open0, g0, open, came, g, f)
      decreases |nbs| - i
    {
      var nb := nbs[i];
      var tentative := Score(g, current) + 1;
      if tentative < Score(g, nb) {
        var open', came', g', f' := open, came[nb := current], g[nb := tentative],
                                    f[nb := tentative + Manhattan(nb, goal)];
        if nb !in open {
          open' := open + [nb];
        }
        RelaxStep(grid, start, goal, current, nbs, i, open0, g0, open, came, g, f, open', came', g', f');
        open, came, g, f := open', came', g', f';
      } else {
        SkipStep(grid, start, goal, current, nbs, i, open0, g0, open, came, g, f);
      }
      i := i + 1;
    }
    ExpandDone(grid, start, goal, current, nbs, open0, g0, open, came, g, f);
  }

  /** `findPath(start, goal)`. The result is empty when the goal is not grass
      (cells off the grid read as wall) or equals the start. Otherwise a
      non-empty result is a route of distinct cells from the start to the
      goal that never visits the start, and no route to the goal is shorter;
      an empty result means no route reaches the goal. */
  method FindPath(grid: Grid, start: Vec2, goal: Vec2) returns (path: seq<Vec2>)
    ensures !Passable(grid, goal) ==> path == []
    ensures start == goal ==> path == []
    ensures path != [] ==> IsRoute(grid, start, path) && Last(path) == goal && start !in path
    ensures forall i, j :: 0 <= i < j < |path| ==> path[i] != path[j]
    ensures |path| < Big
    ensures path != [] ==>
              forall r :: IsRoute(grid, start, r) && r != [] && Last(r) == goal && |r| < Big ==> |path| <= |r|
    ensures path == [] && Passable(grid, goal) && start != goal ==>
              forall r :: IsRoute(grid, start, r) && r != [] && Last(r) == goal ==> |r| >= Big
  {
    if !Passable(grid, goal) {
      return [];
    }
    var open := [start];
    var came: map<Vec2, Vec2> := map[];
    var g: map<Vec2, int> := map[start := 0];
    var f: map<Vec2, int> := map[start := Manhattan(start, goal)];
    while |open| > 0
      invariant SearchInv(grid, start, goal, open, came, g, f)
      decreases Potential(grid, g), |open|
    {
      ghost var before := open;
      open := SortByScore(open, f);
      var current := open[0];
      open := open[1..];
      if current == goal {
        SortedMembers(before, f);
        path := Reconstruct(grid, start, goal, came, g);
        if start != goal {
          GoalPopOptimal(grid, start, goal, before, came, g, f);
        }
        return;
      }
      PopKeeps(grid, start, goal, before, came, g, f);
      PotentialNonNegative(grid, g);
      open, came, g, f := Expand(grid, start, goal, current, open, came, g, f);
    }
    NoRouteLeft(grid, start, goal, came, g, f);
    return [];
  }

  /** No route shorter than the sentinel distance leads from `start` to `goal`. */
  ghost predicate Unreachable(grid: Grid, start: Vec2, goal: Vec2)
  {
    forall r :: IsRoute(grid, start, r) && r != [] && Last(r) == goal ==> |r| >= Big
  }

  /** Every route from `start` to `goal` shorter than the sentinel has at
      least `n` cells. */
  ghost predicate NoShorterRoute(grid: Grid, start: Vec2, goal: Vec2, n: int)
  {
    forall r :: IsRoute(grid, start, r) && r != [] && Last(r) == goal && |r| < Big ==> n <= |r|
  }

  /** For any result `p` of `findPath`: it is empty exactly when the goal is
      not grass, is the start, or cannot be reached; and it has at most one
      cell exactly when, besides those, the goal is one step from the start. */
  lemma FoundPathShort(grid: Grid, start: Vec2, goal: Vec2, p: seq<Vec2>)
    requires !Passable(grid, goal) ==> p == []
    requires start == goal ==> p == []
    requires p != [] ==> IsRoute(grid, start, p) && Last(p) == goal
    requires |p| < Big
    requires p != [] ==>
               forall r :: IsRoute(grid, start, r) && r != [] && Last(r) == goal && |r| < Big ==> |p| <= |r|
    requires p == [] && Passable(grid, goal) && start != goal ==> Unreachable(grid, start, goal)
    ensures p == [] <==> !Passable(grid, goal) || goal == start || Unreachable(grid, start, goal)
    ensures |p| <= 1 <==>
              !Passable(grid, goal) || goal == start || goal in Neighbors(grid, start) || Unreachable(grid, start, goal)
  {
    if goal in Neighbors(grid, start) && p != [] {
      assert IsRoute(grid, start, [goal]) by { assert IsRoute(grid, goal, []); }
      assert Last([goal]) == goal;
    }
    if |p| == 1 {
      assert p[0] in Neighbors(grid, start);
      assert Last(p) == p[0];
    }
  }

  /** What `findPath` returns, cell by cell: each cell is grass inside the
      grid, and from a start inside the grid each cell is one grid step
      from the one before (the first from the start). */
  lemma FoundPathShape(grid: Grid, start: Vec2, path: seq<Vec2>)
    requires IsRoute(grid, start, path) && start !in path
    requires forall i, j :: 0 <= i < j < |path| ==> path[i] != path[j]
    ensures forall i :: 0 <= i < |path| ==>
              Passable(grid, path[i]) && 0 <= path[i].y < |grid| && 0 <= path[i].x < |grid[path[i].y]|
    ensures InBox(grid, start) && path != [] ==>
              Manhattan(start, path[0]) == 1 && forall i :: 0 < i < |path| ==> Manhattan(path[i - 1], path[i]) == 1
  {
    RouteCells(grid, start, path);
    if InBox(grid, start) && path != [] {
      RouteSteps(grid, start, path);
    }
  }

  const GrassRow: seq<Tile> := [Grass, Grass, Grass, Grass, Grass]

  /** An all-grass 5x5 grid. */
  const Field: Grid := [GrassRow, GrassRow, GrassRow, GrassRow, GrassRow]

  /** Along the top edge and down the right edge: eight steps. */
  lemma CornerWalk() returns (walk: seq<Vec2>)
    ensures |walk| == 8 && IsRoute(Field, Vec2(0, 0), walk) && Last(walk) == Vec2(4, 4)
  {
    walk := [Vec2(1, 0), Vec2(2, 0), Vec2(3, 0), Vec2(4, 0), Vec2(4, 1), Vec2(4, 2), Vec2(4, 3), Vec2(4, 4)];
    GridWalkIsRoute(Field, Vec2(0, 0), walk);
  }

  /** On an all-grass 5x5 grid the path from (0, 0) to (4, 4) has eight
      cells. */
  method CornerToCorner() returns (path: seq<Vec2>)
    ensures |path| == 8 && Last(path) == Vec2(4, 4)
  {
    path := FindPath(Field, Vec2(0, 0), Vec2(4, 4));
    ghost var walk := CornerWalk();
    assert Passable(Field, Vec2(4, 4)) && InBox(Field, Vec2(0, 0));
    RouteLength(Field, Vec2(0, 0), path);
  }

  /** What holds while the path is rebuilt: `path` leads from `cur` to
      the goal through cells of strictly growing cost. */
  ghost predicate ReconInv(grid: Grid, start: Vec2, goal: Vec2, g: map<Vec2, int>, cur: Vec2, path: seq<Vec2>)
  {
    && cur in g && goal in g && IsRoute(grid, cur, path)
    && (forall c :: c in path ==> c in g && c != start)
    && (path == [] ==> cur == goal)
    && (path != [] ==> Last(path) == goal && g[cur] < g[path[0]])
    && (forall i, j :: 0 <= i < j < |path| ==> g[path[i]] < g[path[j]])
    && g[cur] + |path| <= g[goal]
  }

  lemma RouteCons(grid: Grid, prev: Vec2, cur: Vec2, path: seq<Vec2>)
    requires cur in Neighbors(grid, prev) && IsRoute(grid, cur, path)
    ensures IsRoute(grid, prev, [cur] + path)
  {
    assert ([cur] + path)[1..] == path;
  }

  lemma GrowingCons(g: map<Vec2, int>, cur: Vec2, path: seq<Vec2>)
    requires cur in g && forall c :: c in path ==> c in g
    requires path != [] ==> g[cur] < g[path[0]]
    requires forall i, j :: 0 <= i < j < |path| ==> g[path[i]] < g[path[j]]
    ensures forall i, j :: 0 <= i < j < |[cur] + path| ==> g[([cur] + path)[i]] < g[([cur] + path)[j]]
  {
    var path' := [cur] + path;
    forall i, j | 0 <= i < j < |path'| ensures g[path'[i]] < g[path'[j]] {
      assert path'[j] == path[j - 1];
      if i > 0 {
        assert path'[i] == path[i - 1];
      } else if j > 1 {
        assert g[path[0]] < g[path[j - 1]];
      }
    }
  }

  lemma ReconStep(grid: Grid, start: Vec2, goal: Vec2, came: map<Vec2, Vec2>, g: map<Vec2, int>,
                  cur: Vec2, path: seq<Vec2>)
    requires ScoresOk(g) && CameOk(grid, start, came, g)
    requires ReconInv(grid, start, goal, g, cur, path) && cur != start
    ensures cur in came && 0 <= g[came[cur]] < g[cur]
    ensures ReconInv(grid, start, goal, g, came[cur], [cur] + path)
  {
    assert cur in came;
    RouteCons(grid, came[cur], cur, path);
    GrowingCons(g, cur, path);
  }

  lemma ReconDone(grid: Grid, start: Vec2, goal: Vec2, g: map<Vec2, int>, path: seq<Vec2>)
    requires ScoresOk(g) && start in g && g[start] == 0 && ReconInv(grid, start, goal, g, start, path)
    ensures start == goal <==> path == []
    ensures path != [] ==> IsRoute(grid, start, path) && Last(path) == goal && start !in path
    ensures forall i, j :: 0 <= i < j < |path| ==> path[i] != path[j]
    ensures |path| <= g[goal]
  {
    if path != [] {
      if |path| > 1 {
        assert g[path[0]] < g[path[|path| - 1]];
      }
    }
  }

  /** Follows `came` back from the goal to the start, building the path by
      prepending each cell: its length is at most g(goal). */
  method Reconstruct(grid: Grid, start: Vec2, goal: Vec2, came: map<Vec2, Vec2>, g: map<Vec2, int>)
    returns (path: seq<Vec2>)
    requires ScoresOk(g) && CameOk(grid, start, came, g) && goal in g
    ensures start == goal <==> path == []
    ensures path != [] ==> IsRoute(grid, start, path) && Last(path) == goal && start !in path
    ensures forall i, j :: 0 <= i < j < |path| ==> path[i] != path[j]
    ensures |path| <= g[goal]
  {
    path := [];
    var cur := goal;
    while cur != start
      invariant ReconInv(grid, start, goal, g, cur, path)
      decreases g[cur]
    {
      ReconStep(grid, start, goal, came, g, cur, path);
      var prev := came[cur];
      path := [cur] + path;
      cur := prev;
    }
    ReconDone(grid, start, goal, g, path);
  }
}
