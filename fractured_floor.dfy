/**
 * The fractured test floor (`FloorGenerator` of the modules tree): the
 * integer-sized grid is split with the fixed forced rule into the
 * `_rect_tiles` list, and each leaf becomes a tile raised by a random height
 * in [0, heightVar] unless its roll is below 0.1.
 */
module FracturedFloor {
  import opened Geometry
  import opened UnityRandom
  import opened Partition

  /** The thresholds written into `SplitHalf`: 4, 1.2 and 0.8, with forcing. */
  const Rule := SplitRule(4.0, 1.2, 0.8, true)

  /** Leaf `i` is skipped when its roll is below 0.1. */
  predicate Skipped(u: real) { u < 0.1 }

  /**
   * The tiles the loop creates: one per leaf whose roll is not skipped, raised
   * by `Random.Range(0, heightVar)` drawn from `lift(i)` for leaf `i`.
   */
  function Survivors(leaves: seq<Rect>, roll: nat -> real, lift: nat -> real, heightVar: real): seq<TileObject>
    requires AllValues(lift)
  {
    if leaves == [] then []
    else
      var i := |leaves| - 1;
      Survivors(leaves[..i], roll, lift, heightVar) +
        (if Skipped(roll(i)) then [] else [TileObject(leaves[i], RangeF(0.0, heightVar, lift(i)))])
  }

  /**
   * Every tile made is one of the leaves, there are no more tiles than
   * leaves, and every height lies in [0, heightVar].
   */
  lemma {:induction false} SurvivorsAreLeaves(leaves: seq<Rect>, roll: nat -> real, lift: nat -> real, heightVar: real)
    requires AllValues(lift)
    ensures var tiles := Survivors(leaves, roll, lift, heightVar);
      |tiles| <= |leaves| &&
      (forall k :: 0 <= k < |tiles| ==> tiles[k].rect in leaves) &&
      (heightVar >= 0.0 ==> forall k :: 0 <= k < |tiles| ==> 0.0 <= tiles[k].level <= heightVar)
  {
    if leaves != [] {
      var i := |leaves| - 1;
      var init := leaves[..i];
      SurvivorsAreLeaves(init, roll, lift, heightVar);
      var tiles := Survivors(leaves, roll, lift, heightVar);
      var front := Survivors(init, roll, lift, heightVar);
      forall k | 0 <= k < |tiles|
        ensures tiles[k].rect in leaves && (heightVar >= 0.0 ==> 0.0 <= tiles[k].level <= heightVar)
      {
        if k < |front| {
          assert tiles[k] == front[k];
          assert tiles[k].rect in init;
        } else {
          assert tiles[k] == TileObject(leaves[i], RangeF(0.0, heightVar, lift(i)));
        }
      }
    }
  }

  /** One more leaf adds at most its own tile. */
  lemma SurvivorsStep(leaves: seq<Rect>, i: nat, roll: nat -> real, lift: nat -> real, heightVar: real)
    requires AllValues(lift) && i < |leaves|
    ensures Survivors(leaves[..i + 1], roll, lift, heightVar) ==
      Survivors(leaves[..i], roll, lift, heightVar) +
        (if Skipped(roll(i)) then [] else [TileObject(leaves[i], RangeF(0.0, heightVar, lift(i)))])
  {
    assert leaves[..i + 1][..i] == leaves[..i];
  }

  /** With no roll below 0.1 every leaf becomes exactly one tile, in order. */
  lemma {:induction false} NoSkipKeepsAll(leaves: seq<Rect>, roll: nat -> real, lift: nat -> real, heightVar: real)
    requires AllValues(lift)
    requires forall i :: 0 <= i < |leaves| ==> !Skipped(roll(i))
    ensures Rects(Survivors(leaves, roll, lift, heightVar)) == leaves
  {
    if leaves != [] {
      var i := |leaves| - 1;
      var init := leaves[..i];
      var last := TileObject(leaves[i], RangeF(0.0, heightVar, lift(i)));
      assert Rects(Survivors(init, roll, lift, heightVar)) == init by {
        NoSkipKeepsAll(init, roll, lift, heightVar);
      }
      calc {
        Rects(Survivors(leaves, roll, lift, heightVar));
        { assert Survivors(leaves, roll, lift, heightVar) == Survivors(init, roll, lift, heightVar) + [last]; }
        Rects(Survivors(init, roll, lift, heightVar) + [last]);
        { RectsAppend(Survivors(init, roll, lift, heightVar), last); }
        init + [leaves[i]];
        { assert leaves == init + [leaves[i]]; }
        leaves;
      }
    }
  }

  /** With every roll below 0.1 no tile is made. */
  lemma {:induction false} AllSkippedKeepsNone(leaves: seq<Rect>, roll: nat -> real, lift: nat -> real, heightVar: real)
    requires AllValues(lift)
    requires forall i :: 0 <= i < |leaves| ==> Skipped(roll(i))
    ensures Survivors(leaves, roll, lift, heightVar) == []
  {
    if leaves != [] {
      AllSkippedKeepsNone(leaves[..|leaves| - 1], roll, lift, heightVar);
    }
  }

  class FloorGenerator {
    var width: int
    var height: int
    var border: real
    var heightVar: real
    var rectTiles: seq<Rect>
    /** The tiles parented to the generator. */
    var children: seq<TileObject>

    constructor ()
      ensures width == 10 && height == 10 && border == 0.02 && heightVar == 0.5
      ensures rectTiles == [] && children == []
    {
      width, height := 10, 10;
      border, heightVar := 0.02, 0.5;
      rectTiles, children := [], [];
    }

    /**
     * `SplitHalf(hleft, htop, hwidth, hheight)`: appends the leaves of that
     * rectangle to `rectTiles`; `path` places the call in the recursion.
     */
    method SplitHalf(hleft: real, htop: real, hwidth: real, hheight: real, prob: Path -> real, vary: Path -> real, path: Path)
      requires ValidDraws(vary)
      modifies this`rectTiles
      ensures rectTiles == old(rectTiles) + Partition.SplitHalf(Rule, Rect(hleft, htop, hwidth, hheight), prob, vary, path)
      decreases Measure(Rule, Rect(hleft, htop, hwidth, hheight)), 1
    {
      var r := Rect(hleft, htop, hwidth, hheight);
      if hwidth + hheight < 4.0 || hwidth < 1.2 || hheight < 0.8 {
        rectTiles := rectTiles + [r];
        return;
      }
      var p := prob(path);
      var forceVerticalSplit := hwidth > hheight * 3.0;
      var forceHorizontalSplit := hheight > hwidth * 3.0;
      if (p < 0.3 || forceVerticalSplit) && !forceHorizontalSplit {
        SplitVertically(hleft, htop, hwidth, hheight, prob, vary, path);
      } else {
        SplitHorizontally(hleft, htop, hwidth, hheight, prob, vary, path);
      }
    }

    /** The vertical branch of `SplitHalf`: cuts the width at `SplitLine` and recurses left, then right. */
    method SplitVertically(hleft: real, htop: real, hwidth: real, hheight: real, prob: Path -> real, vary: Path -> real, path: Path)
      requires ValidDraws(vary) && !IsLeaf(Rule, Rect(hleft, htop, hwidth, hheight))
      requires ChooseAxis(Rule, Rect(hleft, htop, hwidth, hheight), prob(path)) == Vertical
      modifies this`rectTiles
      ensures rectTiles == old(rectTiles) + Partition.SplitHalf(Rule, Rect(hleft, htop, hwidth, hheight), prob, vary, path)
      decreases Measure(Rule, Rect(hleft, htop, hwidth, hheight)), 0
    {
      var r := Rect(hleft, htop, hwidth, hheight);
      ghost var start := rectTiles;
      var splitLine := SplitLine(hwidth, vary(path));
      VerticalShrinks(Rule, r, vary(path));
      SplitHalf(hleft, htop, splitLine, hheight, prob, vary, path + [false]);
      ghost var mid := rectTiles;
      SplitHalf(hleft + splitLine, htop, hwidth - splitLine, hheight, prob, vary, path + [true]);
      AppendVertical(Rule, hleft, htop, hwidth, hheight, prob, vary, path, splitLine, start, mid, rectTiles);
    }

    /** The horizontal branch of `SplitHalf`: cuts the height at `SplitLine` and recurses top, then bottom. */
    method SplitHorizontally(hleft: real, htop: real, hwidth: real, hheight: real, prob: Path -> real, vary: Path -> real, path: Path)
      requires ValidDraws(vary) && !IsLeaf(Rule, Rect(hleft, htop, hwidth, hheight))
      requires ChooseAxis(Rule, Rect(hleft, htop, hwidth, hheight), prob(path)) == Horizontal
      modifies this`rectTiles
      ensures rectTiles == old(rectTiles) + Partition.SplitHalf(Rule, Rect(hleft, htop, hwidth, hheight), prob, vary, path)
      decreases Measure(Rule, Rect(hleft, htop, hwidth, hheight)), 0
    {
      var r := Rect(hleft, htop, hwidth, hheight);
      ghost var start := rectTiles;
      var splitLine := SplitLine(hheight, vary(path));
      HorizontalShrinks(Rule, r, vary(path));
      SplitHalf(hleft, htop, hwidth, splitLine, prob, vary, path + [false]);
      ghost var mid := rectTiles;
      SplitHalf(hleft, htop + splitLine, hwidth, hheight - splitLine, prob, vary, path + [true]);
      AppendHorizontal(Rule, hleft, htop, hwidth, hheight, prob, vary, path, splitLine, start, mid, rectTiles);
    }

    /** `CreateTile(x, y, w, h)`: parents one new tile with that footprint, raised by `Random.Range(0, heightVar)`. */
    method CreateTile(t: Rect, u: real)
      requires IsValue(u)
      modifies this`children
      ensures children == old(children) + [TileObject(t, RangeF(0.0, heightVar, u))]
    {
      children := children + [TileObject(t, RangeF(0.0, heightVar, u))];
    }

    /**
     * `GenerateFloor`: destroys the old tiles, rebuilds `rectTiles` from an
     * empty list, and creates a tile for every leaf not skipped by its roll.
     */
    method GenerateFloor(prob: Path -> real, vary: Path -> real, roll: nat -> real, lift: nat -> real)
      requires ValidDraws(vary) && AllValues(lift)
      modifies this`rectTiles, this`children
      ensures rectTiles == Partition.SplitHalf(Rule, Rect(0.0, 0.0, width as real, height as real), prob, vary, [])
      ensures children == Survivors(rectTiles, roll, lift, heightVar)
    {
      children := [];
      rectTiles := [];
      SplitHalf(0.0, 0.0, width as real, height as real, prob, vary, []);
      assert rectTiles == Partition.SplitHalf(Rule, Rect(0.0, 0.0, width as real, height as real), prob, vary, []);
      var leaves := rectTiles;
      var i := 0;
      while i < |leaves|
        invariant 0 <= i <= |leaves|
        invariant rectTiles == leaves
        invariant children == Survivors(leaves[..i], roll, lift, heightVar)
      {
        SurvivorsStep(leaves, i, roll, lift, heightVar);
        if !Skipped(roll(i)) {
          CreateTile(leaves[i], lift(i));
        }
        i := i + 1;
      }
      assert leaves[..i] == leaves;
    }
  }
}
