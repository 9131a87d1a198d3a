/**
 * The stage-one floor generator (`floorGen`): the same forced split as the
 * arena generator, but leaves are sorted into only two lists. A leaf on the
 * near x or y edge, or within 0.1 of the far width or depth edge, is a wall;
 * every other leaf is a floor tile raised by a random elevation.
 */
module FloorGen {
  import opened Geometry
  import opened UnityRandom
  import opened Partition

  /** The wall test of `GenerateFloor`, in the order the source tries it. */
  predicate IsWall(t: Rect, width: real, depth: real)
  {
    t.x == 0.0 || t.y == 0.0 || t.Right() > width - 0.1 || t.Bottom() > depth - 0.1
  }

  /** The leaves that pass (`wall`) or fail (`!wall`) the wall test, in order. */
  function Walls(leaves: seq<Rect>, wall: bool, width: real, depth: real): (r: seq<Rect>)
    ensures |r| <= |leaves|
    ensures forall k :: 0 <= k < |r| ==> r[k] in leaves && IsWall(r[k], width, depth) == wall
  {
    if leaves == [] then []
    else
      var last := leaves[|leaves| - 1];
      Walls(leaves[..|leaves| - 1], wall, width, depth) +
        (if IsWall(last, width, depth) == wall then [last] else [])
  }

  /** Every leaf is in exactly one of the two lists. */
  lemma {:induction false} WallsSplitLeaves(leaves: seq<Rect>, width: real, depth: real)
    ensures |Walls(leaves, true, width, depth)| + |Walls(leaves, false, width, depth)| == |leaves|
    ensures forall t :: t in leaves ==>
      t in Walls(leaves, true, width, depth) || t in Walls(leaves, false, width, depth)
  {
    if leaves != [] {
      var init := leaves[..|leaves| - 1];
      WallsSplitLeaves(init, width, depth);
      assert leaves == init + [leaves[|leaves| - 1]];
    }
  }

  class FloorGenerator {
    var width: real
    var depth: real
    var minPerimeter: real
    var minWidth: real
    var minDepth: real
    var maxElevation: real
    var floorTiles: seq<TileObject>
    var wallTiles: seq<TileObject>

    ghost predicate Valid()
      reads this
    {
      ValidRule(Rule())
    }

    /** The generator's default inspector values. */
    constructor ()
      ensures Valid() && floorTiles == [] && wallTiles == []
      ensures width == 20.0 && depth == 20.0 && maxElevation == 0.25
      ensures Rule() == SplitRule(4.0, 1.2, 0.8, true)
    {
      width, depth := 20.0, 20.0;
      minPerimeter, minWidth, minDepth := 4.0, 1.2, 0.8;
      maxElevation := 0.25;
      floorTiles, wallTiles := [], [];
    }

    function Rule(): SplitRule
      reads this
    {
      SplitRule(minPerimeter, minWidth, minDepth, true)
    }

    /** `CreateTile`: a floor tile raised by `Random.Range(0, maxElevation)`. */
    function CreateTile(t: Rect, u: real): (tile: TileObject)
      requires IsValue(u)
      reads this
      ensures tile.rect == t
      ensures maxElevation >= 0.0 ==> 0.0 <= tile.level <= maxElevation
    {
      TileObject(t, RangeF(0.0, maxElevation, u))
    }

    ghost predicate ElevationsOk()
      reads this
    {
      (forall k :: 0 <= k < |wallTiles| ==> wallTiles[k].level == 0.0) &&
      (maxElevation >= 0.0 ==> forall k :: 0 <= k < |floorTiles| ==> 0.0 <= floorTiles[k].level <= maxElevation)
    }

    /** One turn of the loop: leaf `t` becomes a wall or a floor tile. */
    method Place(t: Rect, u: real)
      requires IsValue(u) && ElevationsOk()
      modifies this`floorTiles, this`wallTiles
      ensures ElevationsOk()
      ensures Rects(wallTiles) == old(Rects(wallTiles)) + (if IsWall(t, width, depth) then [t] else [])
      ensures Rects(floorTiles) == old(Rects(floorTiles)) + (if IsWall(t, width, depth) then [] else [t])
    {
      if IsWall(t, width, depth) {
        RectsAppend(wallTiles, TileObject(t, 0.0));
        wallTiles := wallTiles + [TileObject(t, 0.0)];
      } else {
        var tile := CreateTile(t, u);
        RectsAppend(floorTiles, tile);
        floorTiles := floorTiles + [tile];
      }
    }

    /**
     * `GenerateFloor`: both lists are cleared, the arena is split, and each
     * leaf in order becomes a wall (at level 0) or a floor tile whose
     * elevation comes from the draw `elevation(i)` of leaf `i`.
     */
    method GenerateFloor(prob: Path -> real, vary: Path -> real, elevation: nat -> real)
      requires Valid() && ValidDraws(vary) && AllValues(elevation)
      modifies this`floorTiles, this`wallTiles
      ensures ElevationsOk()
      ensures var leaves := SplitHalf(Rule(), Rect(0.0, 0.0, width, depth), prob, vary, []);
        Rects(wallTiles) == Walls(leaves, true, width, depth) &&
        Rects(floorTiles) == Walls(leaves, false, width, depth)
    {
      floorTiles := [];
      wallTiles := [];
      var leaves := SplitHalf(Rule(), Rect(0.0, 0.0, width, depth), prob, vary, []);
      var i := 0;
      while i < |leaves|
        invariant 0 <= i <= |leaves|
        invariant ElevationsOk()
        invariant Rects(wallTiles) == Walls(leaves[..i], true, width, depth)
        invariant Rects(floorTiles) == Walls(leaves[..i], false, width, depth)
      {
        assert leaves[..i + 1][..i] == leaves[..i];
        Place(leaves[i], elevation(i));
        i := i + 1;
      }
      assert leaves[..i] == leaves;
    }
  }
}
