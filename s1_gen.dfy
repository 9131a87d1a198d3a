/**
 * The stage-one arena generator (`s1Gen`): the arena rectangle is split with
 * the forced rule, and every leaf becomes a tile in exactly one of the five
 * tile lists, chosen by which arena edge it touches.
 */
module S1Gen {
  import opened Geometry
  import opened UnityRandom
  import opened Partition
  import opened ArenaHelpers

  /** The list a leaf is put in. */
  datatype TileClass = InnerLeftWall | InnerRightWall | OuterRightWall | OuterLeftWall | Floor

  /**
   * Classification in fixed priority: the near x edge, then the near y edge,
   * then the far width edge, then the far depth edge (both within 0.1); a leaf
   * touching none of them is floor.
   */
  function Classify(t: Rect, arenaWidth: real, arenaDepth: real): (c: TileClass)
    ensures c == Floor <==>
      t.x != 0.0 && t.y != 0.0 && t.Right() <= arenaWidth - 0.1 && t.Bottom() <= arenaDepth - 0.1
    ensures c == InnerLeftWall <==> t.x == 0.0
    ensures c == InnerRightWall <==> t.x != 0.0 && t.y == 0.0
    ensures c == OuterRightWall <==> t.x != 0.0 && t.y != 0.0 && t.Right() > arenaWidth - 0.1
    ensures c == OuterLeftWall <==>
      t.x != 0.0 && t.y != 0.0 && t.Right() <= arenaWidth - 0.1 && t.Bottom() > arenaDepth - 0.1
  {
    if t.x == 0.0 then InnerLeftWall
    else if t.y == 0.0 then InnerRightWall
    else if t.Right() > arenaWidth - 0.1 then OuterRightWall
    else if t.Bottom() > arenaDepth - 0.1 then OuterLeftWall
    else Floor
  }

  /** The leaves of class `c`, in their original order. */
  function Select(leaves: seq<Rect>, c: TileClass, arenaWidth: real, arenaDepth: real): seq<Rect>
  {
    if leaves == [] then []
    else
      var last := leaves[|leaves| - 1];
      Select(leaves[..|leaves| - 1], c, arenaWidth, arenaDepth) +
        (if Classify(last, arenaWidth, arenaDepth) == c then [last] else [])
  }

  /** A rectangle is in the list of class `c` exactly when it is a leaf of that class. */
  lemma {:induction false} SelectMembers(leaves: seq<Rect>, c: TileClass, arenaWidth: real, arenaDepth: real)
    ensures forall t :: t in Select(leaves, c, arenaWidth, arenaDepth) <==>
      t in leaves && Classify(t, arenaWidth, arenaDepth) == c
  {
    if leaves != [] {
      var init := leaves[..|leaves| - 1];
      SelectMembers(init, c, arenaWidth, arenaDepth);
      assert leaves == init + [leaves[|leaves| - 1]];
    }
  }

  /** Every leaf lands in exactly one list, so the five lengths add up to the number of leaves. */
  lemma {:induction false} SelectCounts(leaves: seq<Rect>, arenaWidth: real, arenaDepth: real)
    ensures |Select(leaves, InnerLeftWall, arenaWidth, arenaDepth)| + |Select(leaves, InnerRightWall, arenaWidth, arenaDepth)| +
            |Select(leaves, OuterRightWall, arenaWidth, arenaDepth)| + |Select(leaves, OuterLeftWall, arenaWidth, arenaDepth)| +
            |Select(leaves, Floor, arenaWidth, arenaDepth)| == |leaves|
  {
    if leaves != [] {
      SelectCounts(leaves[..|leaves| - 1], arenaWidth, arenaDepth);
    }
  }

  class ArenaGenerator {
    var arenaWidth: real
    var arenaHeight: real
    var arenaDepth: real
    var minTilePerimeter: real
    var minTileWidth: real
    var minTileDepth: real
    var maxTileDescend: real
    var arenaTiles: TileLists

    ghost predicate Valid()
      reads this, arenaTiles
    {
      arenaTiles.Valid() && ValidRule(Rule())
    }

    /** The generator's default inspector values. */
    constructor ()
      ensures Valid() && fresh(arenaTiles) && arenaTiles.AllEmpty()
      ensures arenaWidth == 20.0 && arenaHeight == 0.0 && arenaDepth == 20.0
      ensures Rule() == SplitRule(4.0, 1.2, 0.8, true) && maxTileDescend == 0.25
    {
      arenaWidth, arenaHeight, arenaDepth := 20.0, 0.0, 20.0;
      minTilePerimeter, minTileWidth, minTileDepth := 4.0, 1.2, 0.8;
      maxTileDescend := 0.25;
      arenaTiles := new TileLists(true);
    }

    /** The leaf test and cut rule of `SplitHalf`, with elongation forcing the axis. */
    function Rule(): SplitRule
      reads this
    {
      SplitRule(minTilePerimeter, minTileWidth, minTileDepth, true)
    }

    function Arena(): Rect
      reads this
    {
      Rect(0.0, 0.0, arenaWidth, arenaDepth)
    }

    /** A floor tile sinks by `Random.Range(0, maxTileDescend)` below the floor. */
    function FloorTile(t: Rect, u: real): (tile: TileObject)
      requires IsValue(u)
      reads this
      ensures tile.rect == t
      ensures maxTileDescend >= 0.0 ==> -maxTileDescend <= tile.level <= 0.0
    {
      TileObject(t, -RangeF(0.0, maxTileDescend, u))
    }

    /** The list that holds tiles of class `c`. */
    function ListOf(c: TileClass): TileList
      reads this, arenaTiles
    {
      match c
      case InnerLeftWall => arenaTiles.innerLeftWallTiles
      case InnerRightWall => arenaTiles.innerRightWallTiles
      case OuterRightWall => arenaTiles.outerRightWallTiles
      case OuterLeftWall => arenaTiles.outerLeftWallTiles
      case Floor => arenaTiles.floorTiles
    }

    /** The rectangles in the list of class `c`. */
    ghost function Contents(c: TileClass): seq<Rect>
      reads this, arenaTiles, arenaTiles.Repr()
    {
      Rects(ListOf(c).items)
    }

    /** Walls sit at the arena's height; floor tiles at most `maxTileDescend` below the floor. */
    predicate LevelFits(c: TileClass, level: real)
      reads this
    {
      if c == Floor then maxTileDescend >= 0.0 ==> -maxTileDescend <= level <= 0.0
      else level == arenaHeight
    }

    /** Every tile in every list sits at a level its class allows. */
    ghost predicate LevelsOk()
      reads this, arenaTiles, arenaTiles.Repr()
    {
      forall c, k :: 0 <= k < |ListOf(c).items| ==> LevelFits(c, ListOf(c).items[k].level)
    }

    /** Builds the tile for leaf `t` of class `c` and adds it to that class's list. */
    method Place(t: Rect, c: TileClass, u: real)
      requires Valid() && IsValue(u) && LevelsOk()
      modifies arenaTiles.Repr()
      ensures Valid() && unchanged(arenaTiles) && LevelsOk()
      ensures forall c' :: Contents(c') == old(Contents(c')) + (if c' == c then [t] else [])
    {
      var tile := if c == Floor then FloorTile(t, u) else TileObject(t, arenaHeight);
      assert LevelFits(c, tile.level);
      var list := ListOf(c);
      RectsAppend(list.items, tile);
      list.Add(tile);
      forall c' | c' != c
        ensures ListOf(c').items == old(ListOf(c').items)
      {
        assert ListOf(c') != list;
      }
      forall c', k | 0 <= k < |ListOf(c').items|
        ensures LevelFits(c', ListOf(c').items[k].level)
      {
        if c == c' && k < |old(list.items)| {
          assert list.items[k] == old(list.items)[k];
        }
      }
      forall c'
        ensures Contents(c') == old(Contents(c')) + (if c' == c then [t] else [])
      {
      }
    }

    /**
     * `GenerateArena`: clears the lists, splits the arena, and puts each leaf,
     * in order, in the list its class names. Wall tiles sit at the arena's
     * height; floor tiles sink by a draw from `descend`, indexed by leaf.
     */
    method GenerateArena(prob: Path -> real, vary: Path -> real, descend: nat -> real)
      requires Valid() && ValidDraws(vary) && AllValues(descend)
      modifies arenaTiles.Repr()
      ensures Valid() && unchanged(arenaTiles) && LevelsOk()
      ensures forall c :: Contents(c) == Select(SplitHalf(Rule(), Arena(), prob, vary, []), c, arenaWidth, arenaDepth)
    {
      arenaTiles.ClearTiles();
      var leaves := SplitHalf(Rule(), Arena(), prob, vary, []);
      var i := 0;
      while i < |leaves|
        invariant 0 <= i <= |leaves|
        invariant Valid() && unchanged(arenaTiles) && LevelsOk()
        invariant forall c :: Contents(c) == Select(leaves[..i], c, arenaWidth, arenaDepth)
      {
        assert leaves[..i + 1][..i] == leaves[..i];
        Place(leaves[i], Classify(leaves[i], arenaWidth, arenaDepth), descend(i));
        i := i + 1;
      }
      assert leaves[..i] == leaves;
    }
  }
}
