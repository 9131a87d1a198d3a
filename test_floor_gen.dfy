/**
 * The test-environment floor generator: after the forced split, each leaf is
 * kept with a probability that falls with its distance to the far corner. The
 * roll is `Random.value * 100` and the leaf is kept when it exceeds
 * `80 * d^3`, where `d` is the leaf origin's distance to the corner
 * (width, depth) divided by the arena's diagonal.
 */
module TestFloorGen {
  import opened Geometry
  import opened UnityRandom
  import opened Partition

  /** The keep test: the roll `100 u` beats `80 d^3`. */
  predicate Keep(u: real, d: real)
  {
    u * 100.0 > 80.0 * (d * d * d)
  }

  /** A leaf at the far corner is kept on any positive roll. */
  lemma KeepAtCorner(u: real)
    ensures Keep(u, 0.0) <==> u > 0.0
  {
  }

  /** A leaf one diagonal away from the corner is kept only on rolls above 0.8. */
  lemma KeepAtOrigin(u: real)
    ensures Keep(u, 1.0) <==> u > 0.8
  {
  }

  /** Nearer the far corner never lowers the chance: a roll that keeps a leaf keeps every nearer one. */
  lemma {:induction false} KeepMonotone(u: real, d: real, d': real)
    requires 0.0 <= d' <= d
    requires Keep(u, d)
    ensures Keep(u, d')
  {
    CubeMonotone(d', d);
  }

  lemma CubeMonotone(a: real, b: real)
    requires 0.0 <= a <= b
    ensures a * a * a <= b * b * b
  {
    assert a * a <= b * b by {
      assert b * b - a * a == (b - a) * (b + a);
      assert (b - a) * (b + a) >= 0.0;
    }
    assert a * a * a <= b * b * a;
    assert b * b * a <= b * b * b by {
      assert b * b * b - b * b * a == (b * b) * (b - a);
      assert (b * b) * (b - a) >= 0.0;
    }
  }

  /**
   * The tiles the loop creates from `leaves`, leaf `i` using the roll
   * `roll(i)` and, when kept, the elevation draw `elevation(i)`.
   */
  function KeptTiles(leaves: seq<Rect>, dist: Rect -> real, roll: nat -> real, elevation: nat -> real, maxElevation: real): (tiles: seq<TileObject>)
    requires AllValues(elevation)
    ensures |tiles| <= |leaves|
    ensures forall k :: 0 <= k < |tiles| ==> tiles[k].rect in leaves
    ensures maxElevation >= 0.0 ==> forall k :: 0 <= k < |tiles| ==> 0.0 <= tiles[k].level <= maxElevation
  {
    if leaves == [] then []
    else
      var i := |leaves| - 1;
      var before := KeptTiles(leaves[..i], dist, roll, elevation, maxElevation);
      if Keep(roll(i), dist(leaves[i])) then before + [TileObject(leaves[i], RangeF(0.0, maxElevation, elevation(i)))]
      else before
  }

  /**
   * The indices of the leaves whose roll passes the keep test, in leaf
   * order: leaf `i` is listed exactly when `Keep(roll(i), dist(leaves[i]))`.
   */
  function KeptIndices(leaves: seq<Rect>, dist: Rect -> real, roll: nat -> real): (idx: seq<nat>)
    ensures forall k :: 0 <= k < |idx| ==> idx[k] < |leaves|
    ensures forall k, k' :: 0 <= k < k' < |idx| ==> idx[k] < idx[k']
    ensures forall i :: 0 <= i < |leaves| ==> (i in idx <==> Keep(roll(i), dist(leaves[i])))
  {
    if leaves == [] then []
    else
      var i := |leaves| - 1;
      var before := KeptIndices(leaves[..i], dist, roll);
      assert forall j :: 0 <= j < i ==> leaves[..i][j] == leaves[j];
      if Keep(roll(i), dist(leaves[i])) then before + [i] else before
  }

  /**
   * The loop's tiles are the kept leaves, one tile per kept index and in
   * leaf order, each raised by that leaf's own elevation draw.
   */
  lemma {:induction false} KeptTilesAreKeptLeaves(leaves: seq<Rect>, dist: Rect -> real, roll: nat -> real,
                                                  elevation: nat -> real, maxElevation: real)
    requires AllValues(elevation)
    ensures var tiles := KeptTiles(leaves, dist, roll, elevation, maxElevation);
      var idx := KeptIndices(leaves, dist, roll);
      |tiles| == |idx| &&
      forall k :: 0 <= k < |tiles| ==>
        tiles[k] == TileObject(leaves[idx[k]], RangeF(0.0, maxElevation, elevation(idx[k])))
  {
    if leaves != [] {
      var i := |leaves| - 1;
      var init := leaves[..i];
      KeptTilesAreKeptLeaves(init, dist, roll, elevation, maxElevation);
      var before := KeptTiles(init, dist, roll, elevation, maxElevation);
      var idxBefore := KeptIndices(init, dist, roll);
      var tiles := KeptTiles(leaves, dist, roll, elevation, maxElevation);
      var idx := KeptIndices(leaves, dist, roll);
      forall k | 0 <= k < |before|
        ensures leaves[idxBefore[k]] == init[idxBefore[k]]
      {
      }
      if Keep(roll(i), dist(leaves[i])) {
        assert tiles == before + [TileObject(leaves[i], RangeF(0.0, maxElevation, elevation(i)))];
        assert idx == idxBefore + [i];
      } else {
        assert tiles == before && idx == idxBefore;
      }
    }
  }

  /**
   * For leaves that are pairwise different (as the split's leaves are), a
   * leaf has a tile exactly when its roll passes the keep test, and no leaf
   * has two tiles.
   */
  lemma KeptIff(leaves: seq<Rect>, dist: Rect -> real, roll: nat -> real,
                elevation: nat -> real, maxElevation: real, i: nat)
    requires AllValues(elevation)
    requires forall a, b :: 0 <= a < b < |leaves| ==> leaves[a] != leaves[b]
    requires i < |leaves|
    ensures var tiles := KeptTiles(leaves, dist, roll, elevation, maxElevation);
      (exists k :: 0 <= k < |tiles| && tiles[k].rect == leaves[i]) <==> Keep(roll(i), dist(leaves[i]))
    ensures var tiles := KeptTiles(leaves, dist, roll, elevation, maxElevation);
      forall k, k' :: 0 <= k < k' < |tiles| ==> tiles[k].rect != tiles[k'].rect
  {
    var tiles := KeptTiles(leaves, dist, roll, elevation, maxElevation);
    var idx := KeptIndices(leaves, dist, roll);
    KeptTilesAreKeptLeaves(leaves, dist, roll, elevation, maxElevation);
    if Keep(roll(i), dist(leaves[i])) {
      var k :| 0 <= k < |idx| && idx[k] == i;
      assert tiles[k].rect == leaves[i];
    }
    if exists k :: 0 <= k < |tiles| && tiles[k].rect == leaves[i] {
      var k :| 0 <= k < |tiles| && tiles[k].rect == leaves[i];
      assert leaves[idx[k]] == leaves[i];
      assert idx[k] == i;
    }
  }

  /** When no roll passes the keep test no tile is made. */
  lemma {:induction false} NoneKept(leaves: seq<Rect>, dist: Rect -> real, roll: nat -> real,
                                    elevation: nat -> real, maxElevation: real)
    requires AllValues(elevation)
    requires forall i :: 0 <= i < |leaves| ==> !Keep(roll(i), dist(leaves[i]))
    ensures KeptTiles(leaves, dist, roll, elevation, maxElevation) == []
  {
    if leaves != [] {
      var i := |leaves| - 1;
      assert forall j :: 0 <= j < i ==> leaves[..i][j] == leaves[j];
      NoneKept(leaves[..i], dist, roll, elevation, maxElevation);
    }
  }

  /** A last leaf that passes the keep test adds its tile after the earlier ones. */
  lemma KeptLast(leaves: seq<Rect>, dist: Rect -> real, roll: nat -> real,
                 elevation: nat -> real, maxElevation: real)
    requires AllValues(elevation)
    requires leaves != [] && Keep(roll(|leaves| - 1), dist(leaves[|leaves| - 1]))
    ensures KeptTiles(leaves, dist, roll, elevation, maxElevation) ==
      KeptTiles(leaves[..|leaves| - 1], dist, roll, elevation, maxElevation) +
      [TileObject(leaves[|leaves| - 1], RangeF(0.0, maxElevation, elevation(|leaves| - 1)))]
  {
  }

  /** When every roll passes the keep test every leaf becomes exactly one tile, in order. */
  lemma {:induction false} AllKept(leaves: seq<Rect>, dist: Rect -> real, roll: nat -> real,
                                   elevation: nat -> real, maxElevation: real)
    requires AllValues(elevation)
    requires forall i :: 0 <= i < |leaves| ==> Keep(roll(i), dist(leaves[i]))
    ensures Rects(KeptTiles(leaves, dist, roll, elevation, maxElevation)) == leaves
  {
    if leaves != [] {
      var i := |leaves| - 1;
      var init := leaves[..i];
      assert forall j :: 0 <= j < i ==> init[j] == leaves[j];
      AllKept(init, dist, roll, elevation, maxElevation);
      var before := KeptTiles(init, dist, roll, elevation, maxElevation);
      var last := TileObject(leaves[i], RangeF(0.0, maxElevation, elevation(i)));
      KeptLast(leaves, dist, roll, elevation, maxElevation);
      RectsSnoc(before, last, leaves);
    }
  }

  class TestFloorGenerator {
    var width: real
    var depth: real
    var minPerimeter: real
    var minWidth: real
    var minDepth: real
    var maxElevation: real
    /** The tiles parented to the generator. */
    var children: seq<TileObject>

    ghost predicate Valid()
      reads this
    {
      ValidRule(Rule())
    }

    constructor ()
      ensures Valid() && children == []
      ensures width == 10.0 && depth == 10.0 && maxElevation == 0.5
      ensures Rule() == SplitRule(4.0, 1.2, 0.8, true)
    {
      width, depth := 10.0, 10.0;
      minPerimeter, minWidth, minDepth := 4.0, 1.2, 0.8;
      maxElevation := 0.5;
      children := [];
    }

    function Rule(): SplitRule
      reads this
    {
      SplitRule(minPerimeter, minWidth, minDepth, true)
    }

    /**
     * `GenerateFloor`: destroys the old children, splits the arena and
     * creates one tile for each leaf whose roll passes the keep test.
     * `dist` gives a leaf's normalised distance to the far corner.
     */
    method GenerateFloor(prob: Path -> real, vary: Path -> real, dist: Rect -> real, roll: nat -> real, elevation: nat -> real)
      requires Valid() && ValidDraws(vary) && AllValues(elevation)
      modifies this`children
      ensures children == KeptTiles(SplitHalf(Rule(), Rect(0.0, 0.0, width, depth), prob, vary, []), dist, roll, elevation, maxElevation)
    {
      children := [];
      var leaves := SplitHalf(Rule(), Rect(0.0, 0.0, width, depth), prob, vary, []);
      var i := 0;
      while i < |leaves|
        invariant 0 <= i <= |leaves|
        invariant children == KeptTiles(leaves[..i], dist, roll, elevation, maxElevation)
      {
        assert leaves[..i + 1][..i] == leaves[..i];
        var u := roll(i);
        if Keep(u, dist(leaves[i])) {
          children := children + [TileObject(leaves[i], RangeF(0.0, maxElevation, elevation(i)))];
        }
        i := i + 1;
      }
      assert leaves[..i] == leaves;
    }
  }
}
