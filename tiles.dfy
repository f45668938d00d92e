/** The client's tile grid and the small utilities at the top of the client
    (`clamp`, `toMatrix`, `fromMatrix`, `generateMap`, `truncate`) together
    with `tileAt` and `passable`. */
module Tiles {

  /** 0 = grass, 1 = wall, 2 = water. */
  type Tile = t: int | 0 <= t <= 2

  const Grass: Tile := 0
  const Wall: Tile := 1
  const Water: Tile := 2

  /** Rows of tiles, indexed `grid[y][x]`. Nothing forces the rows to have
      equal length; the width of the grid is the length of its first row. */
  type Grid = seq<seq<Tile>>

  datatype Vec2 = Vec2(x: int, y: int)

  function Height(g: Grid): nat { |g| }

  /** `map[0]?.length ?? 0` */
  function Width(g: Grid): nat { if |g| > 0 then |g[0]| else 0 }

  predicate Rectangular(g: Grid)
  {
    forall y :: 0 <= y < |g| ==> |g[y]| == Width(g)
  }

  /** `Math.max(min, Math.min(max, v))` */
  function Clamp(v: int, lo: int, hi: int): (r: int)
    ensures lo <= hi ==> lo <= r <= hi
    ensures lo <= v <= hi ==> r == v
    ensures r == lo || r == hi || r == v
    ensures v < lo <= hi ==> r == lo
    ensures lo <= hi < v ==> r == hi
  {
    var m := if hi < v then hi else v;
    if lo > m then lo else m
  }

  /** The tile under a cell; a cell outside the grid reads as wall. */
  function TileAt(g: Grid, p: Vec2): (t: Tile)
    ensures t == Grass ==> 0 <= p.y < |g| && 0 <= p.x < |g[p.y]|
    ensures 0 <= p.y < |g| && 0 <= p.x < |g[p.y]| ==> t == g[p.y][p.x]
    ensures !(0 <= p.y < |g| && 0 <= p.x < |g[p.y]|) ==> t == Wall
  {
    if 0 <= p.y < |g| && 0 <= p.x < |g[p.y]| then g[p.y][p.x] else Wall
  }

  /** Only grass can be walked on. */
  predicate Passable(g: Grid, p: Vec2)
  {
    TileAt(g, p) == Grass
  }

  // ----- the row-string codec -----

  function CharTile(c: char): Tile
  {
    if c == '1' then Wall else if c == '2' then Water else Grass
  }

  function TileChar(t: Tile): char
  {
    if t == Wall then '1' else if t == Water then '2' else '0'
  }

  predicate IsTileChar(c: char)
  {
    c == '0' || c == '1' || c == '2'
  }

  function RowTiles(row: string): (r: seq<Tile>)
    ensures |r| == |row|
    ensures forall i :: 0 <= i < |row| ==> r[i] == CharTile(row[i])
  {
    seq(|row|, i requires 0 <= i < |row| => CharTile(row[i]))
  }

  function RowString(row: seq<Tile>): (s: string)
    ensures |s| == |row|
    ensures forall i :: 0 <= i < |row| ==> s[i] == TileChar(row[i])
  {
    seq(|row|, i requires 0 <= i < |row| => TileChar(row[i]))
  }

  /** `toMatrix`: '1' is wall, '2' is water and every other character grass;
      the shape of the rows is kept. */
  function ToMatrix(rows: seq<string>): (m: Grid)
    ensures |m| == |rows|
    ensures forall y :: 0 <= y < |rows| ==> |m[y]| == |rows[y]|
    ensures forall y, x :: 0 <= y < |rows| && 0 <= x < |rows[y]| ==>
              (m[y][x] == Wall <==> rows[y][x] == '1') && (m[y][x] == Water <==> rows[y][x] == '2')
  {
    seq(|rows|, y requires 0 <= y < |rows| => RowTiles(rows[y]))
  }

  /** `fromMatrix`: one string per row, one character '0', '1' or '2' per tile. */
  function FromMatrix(m: Grid): (rows: seq<string>)
    ensures |rows| == |m|
    ensures forall y :: 0 <= y < |m| ==> |rows[y]| == |m[y]|
    ensures forall y, x :: 0 <= y < |m| && 0 <= x < |m[y]| ==> IsTileChar(rows[y][x])
  {
    seq(|m|, y requires 0 <= y < |m| => RowString(m[y]))
  }

  /** Decoding what was encoded gives the grid back. */
  lemma MatrixRoundTrip(m: Grid)
    ensures ToMatrix(FromMatrix(m)) == m
  {
    var rows := FromMatrix(m);
    var back := ToMatrix(rows);
    forall y | 0 <= y < |m|
      ensures back[y] == m[y]
    {
      forall x | 0 <= x < |m[y]|
        ensures back[y][x] == m[y][x]
      {
        assert rows[y][x] == TileChar(m[y][x]);
      }
    }
  }

  /** Encoding what was decoded gives the rows back when they use only the
      characters '0', '1' and '2'. */
  lemma RowsRoundTrip(rows: seq<string>)
    requires forall y, x :: 0 <= y < |rows| && 0 <= x < |rows[y]| ==> IsTileChar(rows[y][x])
    ensures FromMatrix(ToMatrix(rows)) == rows
  {
    var m := ToMatrix(rows);
    var back := FromMatrix(m);
    forall y | 0 <= y < |rows|
      ensures back[y] == rows[y]
    {
      forall x | 0 <= x < |rows[y]|
        ensures back[y][x] == rows[y][x]
      {
        assert m[y][x] == CharTile(rows[y][x]);
      }
    }
  }

  // ----- generateMap -----

  predicate OnBorder(x: int, y: int, w: int, h: int)
  {
    x == 0 || y == 0 || x == w - 1 || y == h - 1
  }

  /** The four cells that are cleared around (12, 12) on a map larger than 13. */
  predicate InClearing(x: int, y: int)
  {
    12 <= x <= 13 && 12 <= y <= 13
  }

  /** `generateMap` with its random numbers supplied: `draws(k)` is the outcome
      of the k-th `Math.random() < p` test (0.08 for a wall, then 0.03 for
      water). Border cells are walls, and when both sides exceed 13 the 2x2
      block at (12, 12) is grass. */
  method GenerateMap(w: nat, h: nat, draws: nat -> bool) returns (m: Grid)
    ensures |m| == h && Rectangular(m) && (h > 0 ==> Width(m) == w)
    ensures forall y, x :: 0 <= y < h && 0 <= x < w && OnBorder(x, y, w, h) && !(h > 13 && w > 13 && InClearing(x, y)) ==>
              m[y][x] == Wall
    ensures h > 13 && w > 13 ==> forall y, x :: InClearing(x, y) ==> m[y][x] == Grass
    ensures (forall k :: !draws(k)) ==>
              forall y, x :: 0 <= y < h && 0 <= x < w && !OnBorder(x, y, w, h) ==> m[y][x] == Grass
  {
    m := [];
    var k := 0;
    var y := 0;
    while y < h
      invariant 0 <= y <= h && |m| == y
      invariant forall j :: 0 <= j < y ==> |m[j]| == w
      invariant forall j, x :: 0 <= j < y && 0 <= x < w && OnBorder(x, j, w, h) ==> m[j][x] == Wall
      invariant (forall i :: !draws(i)) ==>
                  forall j, x :: 0 <= j < y && 0 <= x < w && !OnBorder(x, j, w, h) ==> m[j][x] == Grass
    {
      var row: seq<Tile> := [];
      var x := 0;
      while x < w
        invariant 0 <= x <= w && |row| == x
        invariant forall i :: 0 <= i < x && OnBorder(i, y, w, h) ==> row[i] == Wall
        invariant (forall i :: !draws(i)) ==> forall i :: 0 <= i < x && !OnBorder(i, y, w, h) ==> row[i] == Grass
      {
        var t: Tile := Grass;
        if OnBorder(x, y, w, h) {
          t := Wall;
        } else if draws(k) {
          k := k + 1;
          t := Wall;
        } else {
          k := k + 1;
          if draws(k) {
            t := Water;
          }
          k := k + 1;
        }
        row := row + [t];
        x := x + 1;
      }
      m := m + [row];
      y := y + 1;
    }
    if h > 13 && w > 13 {
      var r12: seq<Tile> := m[12][12 := Grass][13 := Grass];
      var r13: seq<Tile> := m[13][12 := Grass][13 := Grass];
      m := m[12 := r12][13 := r13];
    }
  }

  // ----- truncate -----

  const Ellipsis: char := '\U{2026}'

  /** `s.slice(0, end)`: a negative end counts back from the end of `s`. */
  function SliceTo(s: string, end: int): (r: string)
    ensures 0 <= end <= |s| ==> r == s[..end]
  {
    if end < 0 then (if |s| + end > 0 then s[..|s| + end] else [])
    else if end <= |s| then s[..end] else s
  }

  /** `truncate(s, n)`: a string longer than n keeps its first n - 1
      characters and gets an ellipsis. */
  function Truncate(s: string, n: int): (r: string)
    ensures |s| <= n ==> r == s
    ensures n >= 1 && |s| > n ==> |r| == n && r[..n - 1] == s[..n - 1] && r[n - 1] == Ellipsis
    ensures n >= 1 ==> |r| <= n
  {
    if |s| > n then SliceTo(s, n - 1) + [Ellipsis] else s
  }
}
