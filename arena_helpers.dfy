/**
 * The arena's five tile lists (`TileLists`): one list of floor tiles and one
 * per wall side. The lists are separate objects that `clearTiles` empties in
 * place.
 */
module ArenaHelpers {
  import opened Geometry

  /** A `List<GameObject>` of tiles, changed in place. */
  class TileList {
    var items: seq<TileObject>

    constructor ()
      ensures items == []
    {
      items := [];
    }

    method Add(t: TileObject)
      modifies this
      ensures items == old(items) + [t]
    {
      items := items + [t];
    }

    method Clear()
      modifies this
      ensures items == []
    {
      items := [];
    }
  }

  class TileLists {
    var floorTiles: TileList
    var outerRightWallTiles: TileList
    var outerLeftWallTiles: TileList
    var innerRightWallTiles: TileList
    var innerLeftWallTiles: TileList

    /** The five lists are five different objects. */
    ghost predicate Valid()
      reads this
    {
      floorTiles != outerRightWallTiles && floorTiles != outerLeftWallTiles &&
      floorTiles != innerRightWallTiles && floorTiles != innerLeftWallTiles &&
      outerRightWallTiles != outerLeftWallTiles && outerRightWallTiles != innerRightWallTiles &&
      outerRightWallTiles != innerLeftWallTiles && outerLeftWallTiles != innerRightWallTiles &&
      outerLeftWallTiles != innerLeftWallTiles && innerRightWallTiles != innerLeftWallTiles
    }

    /** The objects the lists' contents live in. */
    function Repr(): set<object>
      reads this
    {
      {floorTiles, outerRightWallTiles, outerLeftWallTiles, innerRightWallTiles, innerLeftWallTiles}
    }

    predicate AllEmpty()
      reads this, Repr()
    {
      floorTiles.items == [] && outerRightWallTiles.items == [] && outerLeftWallTiles.items == [] &&
      innerRightWallTiles.items == [] && innerLeftWallTiles.items == []
    }

    /** The argument is ignored: the result is always five new, empty lists. */
    constructor (random: bool)
      ensures Valid() && AllEmpty()
      ensures fresh(floorTiles) && fresh(outerRightWallTiles) && fresh(outerLeftWallTiles)
      ensures fresh(innerRightWallTiles) && fresh(innerLeftWallTiles)
    {
      floorTiles := new TileList();
      outerRightWallTiles := new TileList();
      outerLeftWallTiles := new TileList();
      innerRightWallTiles := new TileList();
      innerLeftWallTiles := new TileList();
    }

    /**
     * `clearTiles`: empties every list without replacing any of them, so a
     * second call finds nothing to do.
     */
    method ClearTiles()
      requires Valid()
      modifies Repr()
      ensures Valid() && AllEmpty()
      ensures unchanged(this)
    {
      floorTiles.Clear();
      outerRightWallTiles.Clear();
      outerLeftWallTiles.Clear();
      innerRightWallTiles.Clear();
      innerLeftWallTiles.Clear();
    }
  }
}
