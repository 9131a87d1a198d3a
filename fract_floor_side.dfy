/**
 * The side-view test floor (`FloorGeneratorSide`): the integer-sized grid is
 * split with the fixed forced rule into the `_rect_tiles` list, and each leaf
 * becomes a tile at ground level unless its roll is below 0.1. A tile's top
 * face is inset by the crack width `border` on every side.
 */
module FractFloorSide {
  import opened Geometry
  import opened UnityRandom
  import opened Partition

  /** The thresholds written into `SplitHalf`: 4, 1.2 and 0.8, with forcing. */
  const Rule := SplitRule(4.0, 1.2, 0.8, true)

  /** Leaf `i` is skipped when its roll is below 0.1. */
  predicate Skipped(u: real) { u < 0.1 }

  /** The tiles the loop creates: one at ground level per leaf whose roll is not skipped. */
  function Survivors(leaves: seq<Rect>, roll: nat -> real): seq<TileObject>
  {
    if leaves == [] then []
    else
      var i := |leaves| - 1;
      Survivors(leaves[..i], roll) + (if Skipped(roll(i)) then [] else [TileObject(leaves[i], 0.0)])
  }

  /** Every tile made is one of the leaves, at ground level, and there are no more tiles than leaves. */
  lemma {:induction false} SurvivorsAreLeaves(leaves: seq<Rect>, roll: nat -> real)
    ensures var tiles := Survivors(leaves, roll);
      |tiles| <= |leaves| &&
      forall k :: 0 <= k < |tiles| ==> tiles[k].rect in leaves && tiles[k].level == 0.0
  {
    if leaves != [] {
      var i := |leaves| - 1;
      var init := leaves[..i];
      SurvivorsAreLeaves(init, roll);
      var tiles := Survivors(leaves, roll);
      forall k | 0 <= k < |tiles|
        ensures tiles[k].rect in leaves && tiles[k].level == 0.0
      {
        if k < |Survivors(init, roll)| {
          assert tiles[k] == Survivors(init, roll)[k];
          assert tiles[k].rect in init;
        } else {
          assert tiles[k] == TileObject(leaves[i], 0.0);
        }
      }
    }
  }

  /** One more leaf adds at most its own tile. */
  lemma SurvivorsStep(leaves: seq<Rect>, i: nat, roll: nat -> real)
    requires i < |leaves|
    ensures Survivors(leaves[..i + 1], roll) ==
      Survivors(leaves[..i], roll) + (if Skipped(roll(i)) then [] else [TileObject(leaves[i], 0.0)])
  {
    assert leaves[..i + 1][..i] == leaves[..i];
  }

  /** With no roll below 0.1 every leaf becomes exactly one tile, in order. */
  lemma {:induction false} NoSkipKeepsAll(leaves: seq<Rect>, roll: nat -> real)
    requires forall i :: 0 <= i < |leaves| ==> !Skipped(roll(i))
    ensures Rects(Survivors(leaves, roll)) == leaves
  {
    if leaves != [] {
      var i := |leaves| - 1;
      var init := leaves[..i];
      var last := TileObject(leaves[i], 0.0);
      assert Rects(Survivors(init, roll)) == init by {
        NoSkipKeepsAll(init, roll);
      }
      calc {
        Rects(Survivors(leaves, roll));
        { assert Survivors(leaves, roll) == Survivors(init, roll) + [last]; }
        Rects(Survivors(init, roll) + [last]);
        { RectsAppend(Survivors(init, roll), last); }
        init + [leaves[i]];
        { assert leaves == init + [leaves[i]]; }
        leaves;
      }
    }
  }

  /** With every roll below 0.1 no tile is made. */
  lemma {:induction false} AllSkippedKeepsNone(leaves: seq<Rect>, roll: nat -> real)
    requires forall i :: 0 <= i < |leaves| ==> Skipped(roll(i))
    ensures Survivors(leaves, roll) == []
  {
    if leaves != [] {
      AllSkippedKeepsNone(leaves[..|leaves| - 1], roll);
    }
  }

  /**
   * The four corners of a tile's top face, in the mesh's local space: the
   * footprint `w` by `h` inset by `border`, at height `tileHeight`.
   */
  function TopQuad(w: real, h: real, border: real, tileHeight: real): (quad: seq<Vec3>)
    ensures |quad| == 4
    ensures forall k :: 0 <= k < 4 ==> quad[k].y == tileHeight
    ensures 0.0 <= border && 2.0 * border <= w && 2.0 * border <= h ==>
      forall k :: 0 <= k < 4 ==> border <= quad[k].x <= w - border && border <= quad[k].z <= h - border
    ensures quad[0].x == quad[3].x == border && quad[1].x == quad[2].x == w - border
    ensures quad[0].z == quad[1].z == border && quad[2].z == quad[3].z == h - border
  {
    var x0, x1 := border, w - border;
    var z0, z1 := border, h - border;
    [Vec3(x0, tileHeight, z0), Vec3(x1, tileHeight, z0), Vec3(x1, tileHeight, z1), Vec3(x0, tileHeight, z1)]
  }

  class FloorGeneratorSide {
    var width: int
    var height: int
    var border: real
    var tileHeight: real
    var rectTiles: seq<Rect>
    /** The tiles parented to the generator. */
    var children: seq<TileObject>

    constructor ()
      ensures width == 10 && height == 10 && border == 0.02 && tileHeight == 0.5
      ensures rectTiles == [] && children == []
    {
      width, height := 10, 10;
      border, tileHeight := 0.02, 0.5;
      rectTiles, children := [], [];
    }

    /**
     * `SplitHalf(hleft, htop, hwidth, hheight)`: appends the leaves of that
     * rectangle to `rectTiles`; `path` places the call in the recursion.
     */
    method SplitHalf(hleft: real, htop: real, hwidth: real, hheight: real, prob: Path -> real, vary: Path -> real, path: Path)
      requires ValidDraws(vary)
      modifies this`rectTiles
      ensures rectTiles == old(rectTiles) + Partition.SplitHalf(Rule, Rect(hleft, htop, hwidth, hheight), prob, vary, path)
      decreases Measure(Rule, Rect(hleft, htop, hwidth, hheight)), 1
    {
      var r := Rect(hleft, htop, hwidth, hheight);
      if hwidth + hheight < 4.0 || hwidth < 1.2 || hheight < 0.8 {
        rectTiles := rectTiles + [r];
        return;
      }
      var p := prob(path);
      var forceVerticalSplit := hwidth > hheight * 3.0;
      var forceHorizontalSplit := hheight > hwidth * 3.0;
      if (p < 0.3 || forceVerticalSplit) && !forceHorizontalSplit {
        SplitVertically(hleft, htop, hwidth, hheight, prob, vary, path);
      } else {
        SplitHorizontally(hleft, htop, hwidth, hheight, prob, vary, path);
      }
    }

    /** The vertical branch of `SplitHalf`: cuts the width at `SplitLine` and recurses left, then right. */
    method SplitVertically(hleft: real, htop: real, hwidth: real, hheight: real, prob: Path -> real, vary: Path -> real, path: Path)
      requires ValidDraws(vary) && !IsLeaf(Rule, Rect(hleft, htop, hwidth, hheight))
      requires ChooseAxis(Rule, Rect(hleft, htop, hwidth, hheight), prob(path)) == Vertical
      modifies this`rectTiles
      ensures rectTiles == old(rectTiles) + Partition.SplitHalf(Rule, Rect(hleft, htop, hwidth, hheight), prob, vary, path)
      decreases Measure(Rule, Rect(hleft, htop, hwidth, hheight)), 0
    {
      var r := Rect(hleft, htop, hwidth, hheight);
      ghost var start := rectTiles;
      var splitLine := SplitLine(hwidth, vary(path));
      VerticalShrinks(Rule, r, vary(path));
      SplitHalf(hleft, htop, splitLine, hheight, prob, vary, path + [false]);
      ghost var mid := rectTiles;
      SplitHalf(hleft + splitLine, htop, hwidth - splitLine, hheight, prob, vary, path + [true]);
      AppendVertical(Rule, hleft, htop, hwidth, hheight, prob, vary, path, splitLine, start, mid, rectTiles);
    }

    /** The horizontal branch of `SplitHalf`: cuts the height at `SplitLine` and recurses top, then bottom. */
    method SplitHorizontally(hleft: real, htop: real, hwidth: real, hheight: real, prob: Path -> real, vary: Path -> real, path: Path)
      requires ValidDraws(vary) && !IsLeaf(Rule, Rect(hleft, htop, hwidth, hheight))
      requires ChooseAxis(Rule, Rect(hleft, htop, hwidth, hheight), prob(path)) == Horizontal
      modifies this`rectTiles
      ensures rectTiles == old(rectTiles) + Partition.SplitHalf(Rule, Rect(hleft, htop, hwidth, hheight), prob, vary, path)
      decreases Measure(Rule, Rect(hleft, htop, hwidth, hheight)), 0
    {
      var r := Rect(hleft, htop, hwidth, hheight);
      ghost var start := rectTiles;
      var splitLine := SplitLine(hheight, vary(path));
      HorizontalShrinks(Rule, r, vary(path));
      SplitHalf(hleft, htop, hwidth, splitLine, prob, vary, path + [false]);
      ghost var mid := rectTiles;
      SplitHalf(hleft, htop + splitLine, hwidth, hheight - splitLine, prob, vary, path + [true]);
      AppendHorizontal(Rule, hleft, htop, hwidth, hheight, prob, vary, path, splitLine, start, mid, rectTiles);
    }

    /** `CreateTile(x, y, w, h)`: parents one new tile with that footprint at ground level. */
    method CreateTile(t: Rect)
      modifies this`children
      ensures children == old(children) + [TileObject(t, 0.0)]
    {
      children := children + [TileObject(t, 0.0)];
    }

    /**
     * `GenerateFloor`: destroys the old tiles, rebuilds `rectTiles` from an
     * empty list, and creates a tile for every leaf not skipped by its roll.
     */
    method GenerateFloor(prob: Path -> real, vary: Path -> real, roll: nat -> real)
      requires ValidDraws(vary)
      modifies this`rectTiles, this`children
      ensures rectTiles == Partition.SplitHalf(Rule, Rect(0.0, 0.0, width as real, height as real), prob, vary, [])
      ensures children == Survivors(rectTiles, roll)
    {
      children := [];
      rectTiles := [];
      SplitHalf(0.0, 0.0, width as real, height as real, prob, vary, []);
      assert rectTiles == Partition.SplitHalf(Rule, Rect(0.0, 0.0, width as real, height as real), prob, vary, []);
      var leaves := rectTiles;
      var i := 0;
      while i < |leaves|
        invariant 0 <= i <= |leaves|
        invariant rectTiles == leaves
        invariant children == Survivors(leaves[..i], roll)
      {
        SurvivorsStep(leaves, i, roll);
        if !Skipped(roll(i)) {
          CreateTile(leaves[i]);
        }
        i := i + 1;
      }
      assert leaves[..i] == leaves;
    }
  }
}
