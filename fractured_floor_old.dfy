/**
 * The older fractured-floor generator (`FloorGeneratorOld`): an unforced
 * split with smaller thresholds fills `_rect_world`, while the tiles
 * themselves come from a grid: one tile per cell whose pattern entry is not
 * negative, placed at the cell's corner and textured with that entry.
 */
module FracturedFloorOld {
  import opened Geometry
  import opened UnityRandom
  import opened Partition

  /** The thresholds written into `split_half`: 2, 0.6 and 0.4, and no forcing. */
  const Rule := SplitRule(2.0, 0.6, 0.4, false)

  /** A grid tile: its cell, its local position and its index into `uvRects`. */
  datatype GridTile = GridTile(x: int, y: int, position: Vec3, uv: int)

  /** The tile `CreateTile(x, y)` builds. */
  function MakeTile(p: array2<int>, x: int, y: int, tileSize: real): GridTile
    requires 0 <= x < p.Length0 && 0 <= y < p.Length1
    reads p
  {
    GridTile(x, y, Vec3(x as real * tileSize, 0.0, y as real * tileSize), p[x, y])
  }

  /** Row-major order of cells: row first, then column. */
  predicate Before(a: GridTile, b: GridTile)
  {
    a.y < b.y || (a.y == b.y && a.x < b.x)
  }

  /** The tiles of the first `n` cells of row `y`, in column order. */
  function RowTiles(p: array2<int>, y: int, n: int, tileSize: real): seq<GridTile>
    requires 0 <= y < p.Length1 && 0 <= n <= p.Length0
    reads p
    decreases n
  {
    if n == 0 then []
    else
      RowTiles(p, y, n - 1, tileSize) + (if p[n - 1, y] >= 0 then [MakeTile(p, n - 1, y, tileSize)] else [])
  }

  /** The tiles of the first `m` rows of a `w`-column grid, row after row. */
  function GridTiles(p: array2<int>, w: int, m: int, tileSize: real): seq<GridTile>
    requires 0 <= w <= p.Length0 && 0 <= m <= p.Length1
    reads p
    decreases m
  {
    if m == 0 then [] else GridTiles(p, w, m - 1, tileSize) + RowTiles(p, m - 1, w, tileSize)
  }

  /** A cell's tile is in the grid's list exactly when it lies in the grid and its pattern entry is not negative. */
  predicate CoversCells(p: array2<int>, w: int, m: int, tileSize: real, tiles: seq<GridTile>)
    requires 0 <= w <= p.Length0 && 0 <= m <= p.Length1
    reads p
  {
    (forall k :: 0 <= k < |tiles| ==>
      0 <= tiles[k].x < w && 0 <= tiles[k].y < m && tiles[k] == MakeTile(p, tiles[k].x, tiles[k].y, tileSize) &&
      p[tiles[k].x, tiles[k].y] >= 0) &&
    (forall x, y :: 0 <= x < w && 0 <= y < m && p[x, y] >= 0 ==> MakeTile(p, x, y, tileSize) in tiles)
  }

  /** The tiles of a row: from that row, each from a non-negative entry, in strictly increasing columns. */
  predicate RowShape(p: array2<int>, y: int, n: int, tileSize: real, tiles: seq<GridTile>)
    requires 0 <= y < p.Length1 && 0 <= n <= p.Length0
    reads p
  {
    (forall k :: 0 <= k < |tiles| ==>
      tiles[k].y == y && 0 <= tiles[k].x < n && tiles[k] == MakeTile(p, tiles[k].x, y, tileSize) && p[tiles[k].x, y] >= 0) &&
    (forall x :: 0 <= x < n && p[x, y] >= 0 ==> MakeTile(p, x, y, tileSize) in tiles) &&
    (forall i, j :: 0 <= i < j < |tiles| ==> tiles[i].x < tiles[j].x)
  }

  predicate RowMajor(tiles: seq<GridTile>)
  {
    forall i, j :: 0 <= i < j < |tiles| ==> Before(tiles[i], tiles[j])
  }

  /** A row's tiles are exactly its cells with a non-negative entry, in column order. */
  lemma {:induction false} RowTilesSpec(p: array2<int>, y: int, n: int, tileSize: real)
    requires 0 <= y < p.Length1 && 0 <= n <= p.Length0
    ensures RowShape(p, y, n, tileSize, RowTiles(p, y, n, tileSize))
    decreases n
  {
    if n > 0 {
      RowTilesSpec(p, y, n - 1, tileSize);
    }
  }

  /**
   * `GenerateTiles` visits every cell exactly once: the grid's tiles are
   * exactly the cells with a non-negative entry, each once, in row-major order.
   */
  lemma {:induction false} GridTilesSpec(p: array2<int>, w: int, m: int, tileSize: real)
    requires 0 <= w <= p.Length0 && 0 <= m <= p.Length1
    ensures CoversCells(p, w, m, tileSize, GridTiles(p, w, m, tileSize))
    ensures RowMajor(GridTiles(p, w, m, tileSize))
    decreases m
  {
    if m > 0 {
      GridTilesSpec(p, w, m - 1, tileSize);
      RowTilesSpec(p, m - 1, w, tileSize);
      var before := GridTiles(p, w, m - 1, tileSize);
      var row := RowTiles(p, m - 1, w, tileSize);
      var tiles := before + row;
      forall k | 0 <= k < |tiles|
        ensures 0 <= tiles[k].x < w && 0 <= tiles[k].y < m && tiles[k] == MakeTile(p, tiles[k].x, tiles[k].y, tileSize) &&
          p[tiles[k].x, tiles[k].y] >= 0
      {
        if k < |before| {
          assert tiles[k] == before[k];
          assert 0 <= before[k].x < w && 0 <= before[k].y < m - 1;
        } else {
          assert tiles[k] == row[k - |before|];
        }
      }
      RowMajorAppend(before, row, m - 1);
    }
  }

  /** A row appended after the rows above it keeps the list in row-major order. */
  lemma RowMajorAppend(before: seq<GridTile>, row: seq<GridTile>, y: int)
    requires RowMajor(before) && forall k :: 0 <= k < |before| ==> before[k].y < y
    requires forall k :: 0 <= k < |row| ==> row[k].y == y
    requires forall i, j :: 0 <= i < j < |row| ==> row[i].x < row[j].x
    ensures RowMajor(before + row)
  {
    var tiles := before + row;
    forall i, j | 0 <= i < j < |tiles|
      ensures Before(tiles[i], tiles[j])
    {
      if j < |before| {
        assert tiles[i] == before[i] && tiles[j] == before[j];
      } else if i >= |before| {
        assert tiles[i] == row[i - |before|] && tiles[j] == row[j - |before|];
      } else {
        assert tiles[i] == before[i] && tiles[j] == row[j - |before|];
      }
    }
  }

  /** Distinct positions in the list are distinct cells: no cell is visited twice. */
  lemma NoCellTwice(p: array2<int>, w: int, h: int, tileSize: real, i: int, j: int)
    requires 0 <= w <= p.Length0 && 0 <= h <= p.Length1
    requires 0 <= i < j < |GridTiles(p, w, h, tileSize)|
    ensures var tiles := GridTiles(p, w, h, tileSize);
      (tiles[i].x, tiles[i].y) != (tiles[j].x, tiles[j].y)
  {
    GridTilesSpec(p, w, h, tileSize);
  }

  /**
   * `BuildRectMesh` can read `uvRects` at the cell's entry: the entry is
   * negative (the cell is skipped first) or an index below `uvCount`.
   */
  predicate UvOk(p: array2<int>, x: int, y: int, uvCount: int)
    requires 0 <= x < p.Length0 && 0 <= y < p.Length1
    reads p
  {
    p[x, y] < uvCount
  }

  /** Every one of the first `n` cells of row `y` can be built. */
  predicate RowOk(p: array2<int>, y: int, n: int, uvCount: int)
    requires 0 <= y < p.Length1 && 0 <= n <= p.Length0
    reads p
  {
    forall x :: 0 <= x < n ==> UvOk(p, x, y, uvCount)
  }

  /** Every cell of the first `m` rows of a `w`-column grid can be built. */
  predicate GridOk(p: array2<int>, w: int, m: int, uvCount: int)
    requires 0 <= w <= p.Length0 && 0 <= m <= p.Length1
    reads p
  {
    forall x, y :: 0 <= x < w && 0 <= y < m ==> UvOk(p, x, y, uvCount)
  }

  /**
   * Cell (x, y) is the first one, in the grid loop's row-major order, whose
   * entry is not an index into `uvRects`: there `BuildRectMesh` throws.
   */
  predicate FirstBadCell(p: array2<int>, w: int, h: int, uvCount: int, x: int, y: int)
    requires 0 <= w <= p.Length0 && 0 <= h <= p.Length1
    reads p
  {
    0 <= x < w && 0 <= y < h && !UvOk(p, x, y, uvCount) && GridOk(p, w, y, uvCount) && RowOk(p, y, x, uvCount)
  }

  /** One more row that can be built extends the rows that can. */
  lemma GridOkStep(p: array2<int>, w: int, m: int, uvCount: int)
    requires 0 <= w <= p.Length0 && 0 <= m < p.Length1
    requires GridOk(p, w, m, uvCount) && RowOk(p, m, w, uvCount)
    ensures GridOk(p, w, m + 1, uvCount)
  {
  }

  /** A first bad cell means the grid cannot be built all through. */
  lemma FirstBadCellFails(p: array2<int>, w: int, h: int, uvCount: int, x: int, y: int)
    requires 0 <= w <= p.Length0 && 0 <= h <= p.Length1
    requires FirstBadCell(p, w, h, uvCount, x, y)
    ensures !GridOk(p, w, h, uvCount)
  {
    assert !RowOk(p, y, w, uvCount);
  }

  /** A grid that cannot be built all through has exactly one first bad cell. */
  lemma FirstBadCellUnique(p: array2<int>, w: int, h: int, uvCount: int, x1: int, y1: int, x2: int, y2: int)
    requires 0 <= w <= p.Length0 && 0 <= h <= p.Length1
    requires FirstBadCell(p, w, h, uvCount, x1, y1) && FirstBadCell(p, w, h, uvCount, x2, y2)
    ensures x1 == x2 && y1 == y2
  {
  }

  /** With no `uvRects`, the demo pattern's all-zero entries fail at the very first cell. */
  lemma EmptyAtlasFailsFirstCell(p: array2<int>, w: int, h: int)
    requires 0 < w <= p.Length0 && 0 < h <= p.Length1
    requires forall x, y :: 0 <= x < w && 0 <= y < h ==> p[x, y] == 0
    ensures FirstBadCell(p, w, h, 0, 0, 0)
    ensures !GridOk(p, w, h, 0)
  {
    assert !UvOk(p, 0, 0, 0);
    assert !RowOk(p, 0, w, 0);
  }

  /** The grid check `Start` makes as written: only the first dimension is compared. */
  predicate NeedsPatternAsWritten(hasPattern: bool, length0: int, length1: int, width: int, height: int)
  {
    !hasPattern || length0 != width
  }

  /** The check `Start` needs: a pattern is kept only when it covers the whole grid. */
  predicate NeedsPattern(hasPattern: bool, length0: int, length1: int, width: int, height: int)
  {
    !hasPattern || length0 != width || length1 < height
  }

  /**
   * A pattern with the right width but one column too few is kept by the
   * check as written, though the grid loop reads column `height - 1`, which
   * it lacks; the full check replaces it.
   */
  lemma KeptPatternTooShort(width: int, height: int)
    requires width >= 1 && height >= 1
    ensures !NeedsPatternAsWritten(true, width, height - 1, width, height)
    ensures NeedsPattern(true, width, height - 1, width, height)
  {
  }

  class FloorGeneratorOld {
    var width: int
    var height: int
    var tileSize: real
    /** The number of entries of `uvRects`. */
    var uvCount: nat
    var rectWorld: seq<Rect>
    var pattern: array2?<int>
    /** The tiles parented to the generator. */
    var children: seq<GridTile>

    constructor (uvCount: nat)
      ensures width == 10 && height == 10 && tileSize == 1.0 && this.uvCount == uvCount
      ensures pattern == null && rectWorld == [] && children == []
    {
      width, height, tileSize := 10, 10, 1.0;
      this.uvCount := uvCount;
      pattern := null;
      rectWorld, children := [], [];
    }

    /** `split_half`: appends the leaves of the rectangle to `rectWorld`. */
    method SplitHalf(hleft: real, htop: real, hwidth: real, hheight: real, prob: Path -> real, vary: Path -> real, path: Path)
      requires ValidDraws(vary)
      modifies this`rectWorld
      ensures rectWorld == old(rectWorld) + Partition.SplitHalf(Rule, Rect(hleft, htop, hwidth, hheight), prob, vary, path)
      decreases Measure(Rule, Rect(hleft, htop, hwidth, hheight)), 1
    {
      var r := Rect(hleft, htop, hwidth, hheight);
      if hwidth + hheight < 2.0 || hwidth < 0.6 || hheight < 0.4 {
        rectWorld := rectWorld + [r];
        return;
      }
      var p := prob(path);
      if p < 0.3 {
        SplitVertically(hleft, htop, hwidth, hheight, prob, vary, path);
      } else {
        SplitHorizontally(hleft, htop, hwidth, hheight, prob, vary, path);
      }
    }

    /** The vertical branch of `SplitHalf`: cuts the width at `SplitLine` and recurses left, then right. */
    method SplitVertically(hleft: real, htop: real, hwidth: real, hheight: real, prob: Path -> real, vary: Path -> real, path: Path)
      requires ValidDraws(vary) && !IsLeaf(Rule, Rect(hleft, htop, hwidth, hheight))
      requires ChooseAxis(Rule, Rect(hleft, htop, hwidth, hheight), prob(path)) == Vertical
      modifies this`rectWorld
      ensures rectWorld == old(rectWorld) + Partition.SplitHalf(Rule, Rect(hleft, htop, hwidth, hheight), prob, vary, path)
      decreases Measure(Rule, Rect(hleft, htop, hwidth, hheight)), 0
    {
      var r := Rect(hleft, htop, hwidth, hheight);
      ghost var start := rectWorld;
      var splitLine := SplitLine(hwidth, vary(path));
      VerticalShrinks(Rule, r, vary(path));
      SplitHalf(hleft, htop, splitLine, hheight, prob, vary, path + [false]);
      ghost var mid := rectWorld;
      SplitHalf(hleft + splitLine, htop, hwidth - splitLine, hheight, prob, vary, path + [true]);
      AppendVertical(Rule, hleft, htop, hwidth, hheight, prob, vary, path, splitLine, start, mid, rectWorld);
    }

    /** The horizontal branch of `SplitHalf`: cuts the height at `SplitLine` and recurses top, then bottom. */
    method SplitHorizontally(hleft: real, htop: real, hwidth: real, hheight: real, prob: Path -> real, vary: Path -> real, path: Path)
      requires ValidDraws(vary) && !IsLeaf(Rule, Rect(hleft, htop, hwidth, hheight))
      requires ChooseAxis(Rule, Rect(hleft, htop, hwidth, hheight), prob(path)) == Horizontal
      modifies this`rectWorld
      ensures rectWorld == old(rectWorld) + Partition.SplitHalf(Rule, Rect(hleft, htop, hwidth, hheight), prob, vary, path)
      decreases Measure(Rule, Rect(hleft, htop, hwidth, hheight)), 0
    {
      var r := Rect(hleft, htop, hwidth, hheight);
      ghost var start := rectWorld;
      var splitLine := SplitLine(hheight, vary(path));
      HorizontalShrinks(Rule, r, vary(path));
      SplitHalf(hleft, htop, hwidth, splitLine, prob, vary, path + [false]);
      ghost var mid := rectWorld;
      SplitHalf(hleft, htop + splitLine, hwidth, hheight - splitLine, prob, vary, path + [true]);
      AppendHorizontal(Rule, hleft, htop, hwidth, hheight, prob, vary, path, splitLine, start, mid, rectWorld);
    }

    /**
     * `CreateTile(x, y)`: nothing for a negative pattern entry, otherwise one
     * new tile. Its GameObject is parented before `BuildRectMesh` reads
     * `uvRects[entry]`, so an entry past the end leaves the tile in place and
     * then throws.
     */
    method CreateTile(x: int, y: int) returns (thrown: bool)
      requires pattern != null && 0 <= x < pattern.Length0 && 0 <= y < pattern.Length1
      modifies this`children
      ensures thrown <==> !UvOk(pattern, x, y, uvCount)
      ensures children == old(children) + (if pattern[x, y] < 0 then [] else [MakeTile(pattern, x, y, tileSize)])
    {
      var idx := pattern[x, y];
      if idx < 0 {
        return false;
      }
      children := children + [MakeTile(pattern, x, y, tileSize)];
      thrown := idx >= uvCount;
    }

    /**
     * The inner loop of the grid: row `y`, column by column. When every cell
     * of the row can be built it appends exactly the row's tiles; otherwise
     * the exception at the first bad column ends it after that column's tile.
     */
    method CreateRow(y: int) returns (thrown: bool, ghost at: int)
      requires pattern != null && 0 <= width <= pattern.Length0 && 0 <= y < pattern.Length1
      modifies this`children
      ensures !thrown <==> RowOk(pattern, y, width, uvCount)
      ensures !thrown ==> children == old(children) + RowTiles(pattern, y, width, tileSize)
      ensures thrown ==> (0 <= at < width && !UvOk(pattern, at, y, uvCount) && RowOk(pattern, y, at, uvCount) &&
        children == old(children) + RowTiles(pattern, y, at + 1, tileSize))
    {
      at := 0;
      var x := 0;
      while x < width
        invariant 0 <= x <= width
        invariant RowOk(pattern, y, x, uvCount)
        invariant children == old(children) + RowTiles(pattern, y, x, tileSize)
      {
        thrown := CreateTile(x, y);
        if thrown {
          at := x;
          return;
        }
        x := x + 1;
      }
      thrown := false;
    }

    /**
     * The nested grid loop: row by row. When every cell can be built it
     * appends exactly the grid's tiles; otherwise the exception at the first
     * bad cell ends it with the tiles up to and including that cell's.
     */
    method CreateGrid() returns (thrown: bool, ghost at: (int, int))
      requires pattern != null && 0 <= width <= pattern.Length0 && 0 <= height <= pattern.Length1
      modifies this`children
      ensures !thrown <==> GridOk(pattern, width, height, uvCount)
      ensures !thrown ==> children == old(children) + GridTiles(pattern, width, height, tileSize)
      ensures thrown ==> (FirstBadCell(pattern, width, height, uvCount, at.0, at.1) &&
        children == old(children) + GridTiles(pattern, width, at.1, tileSize) + RowTiles(pattern, at.1, at.0 + 1, tileSize))
    {
      at := (0, 0);
      var y := 0;
      while y < height
        invariant 0 <= y <= height
        invariant GridOk(pattern, width, y, uvCount)
        invariant children == old(children) + GridTiles(pattern, width, y, tileSize)
      {
        ghost var x;
        thrown, x := CreateRow(y);
        if thrown {
          at := (x, y);
          FirstBadCellFails(pattern, width, height, uvCount, x, y);
          return;
        }
        GridOkStep(pattern, width, y, uvCount);
        y := y + 1;
      }
      thrown := false;
    }

    /**
     * `GenerateTiles`: destroys the old tiles, rebuilds `rectWorld` from an
     * empty list and creates the grid's tiles from the current pattern, as
     * far as the grid loop gets.
     */
    method GenerateTiles(prob: Path -> real, vary: Path -> real) returns (thrown: bool, ghost at: (int, int))
      requires ValidDraws(vary)
      requires pattern != null && 0 <= width <= pattern.Length0 && 0 <= height <= pattern.Length1
      modifies this`rectWorld, this`children
      ensures rectWorld == Partition.SplitHalf(Rule, Rect(0.0, 0.0, width as real, height as real), prob, vary, [])
      ensures !thrown <==> GridOk(pattern, width, height, uvCount)
      ensures !thrown ==> children == GridTiles(pattern, width, height, tileSize)
      ensures thrown ==> (FirstBadCell(pattern, width, height, uvCount, at.0, at.1) &&
        children == GridTiles(pattern, width, at.1, tileSize) + RowTiles(pattern, at.1, at.0 + 1, tileSize))
    {
      children := [];
      rectWorld := [];
      SplitHalf(0.0, 0.0, width as real, height as real, prob, vary, []);
      thrown, at := CreateGrid();
    }

    /**
     * `MakeDemoPattern`: a new width-by-height grid whose every entry is
     * `Random.Range(0, uvRects.Length)`, drawn from `draw(x, y)`.
     */
    method MakeDemoPattern(draw: (int, int) -> real) returns (p: array2<int>)
      requires width >= 0 && height >= 0
      requires forall x, y :: IsIntDraw(draw(x, y))
      ensures fresh(p) && p.Length0 == width && p.Length1 == height
      ensures forall x, y :: 0 <= x < width && 0 <= y < height ==>
        if uvCount == 0 then p[x, y] == 0 else 0 <= p[x, y] < uvCount
    {
      p := new int[width, height];
      var y := 0;
      while y < height
        invariant 0 <= y <= height
        invariant forall x', y' :: 0 <= x' < width && 0 <= y' < y ==>
          if uvCount == 0 then p[x', y'] == 0 else 0 <= p[x', y'] < uvCount
      {
        var x := 0;
        while x < width
          invariant 0 <= x <= width
          invariant forall x', y' :: 0 <= x' < width && 0 <= y' < y ==>
            if uvCount == 0 then p[x', y'] == 0 else 0 <= p[x', y'] < uvCount
          invariant forall x' :: 0 <= x' < x ==>
            if uvCount == 0 then p[x', y] == 0 else 0 <= p[x', y] < uvCount
        {
          p[x, y] := RangeI(0, uvCount, draw(x, y));
          x := x + 1;
        }
        y := y + 1;
      }
    }

    /**
     * `Start`: destroys the old tiles, replaces a missing or ill-sized
     * pattern by a demo pattern, and creates the grid's tiles as far as the
     * grid loop gets. With no `uvRects` a fresh demo pattern fails at the
     * first cell of a non-empty grid.
     */
    method Start(draw: (int, int) -> real) returns (thrown: bool, ghost at: (int, int))
      requires width >= 0 && height >= 0
      requires forall x, y :: IsIntDraw(draw(x, y))
      modifies this`pattern, this`children
      ensures pattern != null && width <= pattern.Length0 && height <= pattern.Length1
      ensures old(pattern) != null && !NeedsPattern(true, old(pattern).Length0, old(pattern).Length1, width, height) ==>
        pattern == old(pattern)
      ensures old(pattern) == null || NeedsPattern(true, old(pattern).Length0, old(pattern).Length1, width, height) ==>
        fresh(pattern) && pattern.Length0 == width && pattern.Length1 == height &&
        forall x, y :: 0 <= x < width && 0 <= y < height ==>
          if uvCount == 0 then pattern[x, y] == 0 else 0 <= pattern[x, y] < uvCount
      ensures !thrown <==> GridOk(pattern, width, height, uvCount)
      ensures !thrown ==> children == GridTiles(pattern, width, height, tileSize)
      ensures thrown ==> (FirstBadCell(pattern, width, height, uvCount, at.0, at.1) &&
        children == GridTiles(pattern, width, at.1, tileSize) + RowTiles(pattern, at.1, at.0 + 1, tileSize))
      ensures pattern != old(pattern) && uvCount == 0 && width > 0 && height > 0 ==> thrown && at == (0, 0)
    {
      children := [];
      if pattern == null || NeedsPattern(true, pattern.Length0, pattern.Length1, width, height) {
        pattern := MakeDemoPattern(draw);
        if uvCount == 0 && width > 0 && height > 0 {
          EmptyAtlasFailsFirstCell(pattern, width, height);
        }
      }
      thrown, at := CreateGrid();
      if pattern != old(pattern) && uvCount == 0 && width > 0 && height > 0 {
        FirstBadCellUnique(pattern, width, height, uvCount, at.0, at.1, 0, 0);
      }
    }
  }
}
