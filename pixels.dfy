/** The grayscale handlers' nested pixel loop: `for y < h, for x < w:
    dest.setRGB(x, y, rule(src.getRGB(x, y)))`. The destination raster is a
    two-dimensional array indexed [y, x]; the loop also yields, as a ghost,
    the order in which it wrote the positions. */
module PixelLoop {

  import opened Images

  /** Each position of the w by h rectangle occurs exactly once in
      `writes`, and no other position occurs. */
  ghost predicate EachPositionOnce(writes: seq<(int, int)>, w: int, h: int)
  {
    forall x, y :: multiset(writes)[(x, y)] == if 0 <= x < w && 0 <= y < h then 1 else 0
  }

  /** The rows of a two-dimensional array. */
  function GridOf(a: array2<bv32>): (rows: seq<seq<bv32>>)
    reads a
    ensures IsGrid(rows, a.Length1, a.Length0)
    ensures forall y, x :: 0 <= y < a.Length0 && 0 <= x < a.Length1 ==> rows[y][x] == a[y, x]
  {
    seq(a.Length0, y requires 0 <= y < a.Length0 reads a =>
      seq(a.Length1, x requires 0 <= x < a.Length1 reads a => a[y, x]))
  }

  /** The grid with `rule` applied to every word. */
  function MapGrid(rows: seq<seq<bv32>>, rule: bv32 -> bv32): (r: seq<seq<bv32>>)
    ensures |r| == |rows|
    ensures forall y :: 0 <= y < |rows| ==> |r[y]| == |rows[y]|
    ensures forall y, x :: 0 <= y < |rows| && 0 <= x < |rows[y]| ==> r[y][x] == rule(rows[y][x])
  {
    seq(|rows|, y requires 0 <= y < |rows| =>
      seq(|rows[y]|, x requires 0 <= x < |rows[y]| => rule(rows[y][x])))
  }

  /** A rule that is idempotent on words is idempotent on whole images:
      running the loop on its own output changes nothing. */
  lemma {:induction false} MapGridIdempotent(rows: seq<seq<bv32>>, rule: bv32 -> bv32)
    requires forall p :: rule(rule(p)) == rule(p)
    ensures MapGrid(MapGrid(rows, rule), rule) == MapGrid(rows, rule)
  {
    var once := MapGrid(rows, rule);
    var twice := MapGrid(once, rule);
    forall y | 0 <= y < |rows|
      ensures twice[y] == once[y]
    {
      forall x | 0 <= x < |rows[y]|
        ensures twice[y][x] == once[y][x]
      {
        var p := rows[y][x];
        assert once[y][x] == rule(p);
        assert twice[y][x] == rule(rule(p));
      }
    }
  }

  /** The nested loop. Afterwards `dest` holds `rule` applied to every
      source word, and the ghost record of writes lists every position of
      the image exactly once. */
  method MapPixels(src: Decoded, dest: array2<bv32>, rule: bv32 -> bv32) returns (ghost writes: seq<(int, int)>)
    requires dest.Length0 == src.height && dest.Length1 == src.width
    modifies dest
    ensures GridOf(dest) == MapGrid(src.content.rows, rule)
    ensures EachPositionOnce(writes, src.width, src.height)
  {
    assert IsGrid(src.content.rows, src.width, src.height);
    var rows := src.content.rows;
    var w, h := src.width, src.height;
    writes := [];
    var y := 0;
    while y < h
      invariant 0 <= y <= h
      invariant forall i, j :: multiset(writes)[(i, j)] == if 0 <= i < w && 0 <= j < y then 1 else 0
      invariant forall j, i :: 0 <= j < y && 0 <= i < w ==> dest[j, i] == rule(rows[j][i])
    {
      var x := 0;
      while x < w
        invariant 0 <= x <= w
        invariant forall i, j :: multiset(writes)[(i, j)] == if (0 <= i < w && 0 <= j < y) || (0 <= i < x && j == y) then 1 else 0
        invariant forall j, i :: 0 <= j < y && 0 <= i < w ==> dest[j, i] == rule(rows[j][i])
        invariant forall i :: 0 <= i < x ==> dest[y, i] == rule(rows[y][i])
      {
        var rgb := rows[y][x];
        dest[y, x] := rule(rgb);
        writes := writes + [(x, y)];
        x := x + 1;
      }
      y := y + 1;
    }
    GridMatches(dest, rows, rule);
  }

  lemma GridMatches(a: array2<bv32>, rows: seq<seq<bv32>>, rule: bv32 -> bv32)
    requires IsGrid(rows, a.Length1, a.Length0)
    requires forall j, i :: 0 <= j < a.Length0 && 0 <= i < a.Length1 ==> a[j, i] == rule(rows[j][i])
    ensures GridOf(a) == MapGrid(rows, rule)
  {
    var g, m := GridOf(a), MapGrid(rows, rule);
    forall y | 0 <= y < a.Length0
      ensures g[y] == m[y]
    {
    }
  }
}
