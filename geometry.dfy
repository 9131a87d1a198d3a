/**
 * Plain geometric values shared by the arena generators and the spawners:
 * the engine's `Rect` (x, y, width, height; the arena's y axis is the
 * world's z axis) and a three-component position.
 */
module Geometry {

  datatype Rect = Rect(x: real, y: real, width: real, height: real)
  {
    function Right(): real { x + width }
    function Bottom(): real { y + height }
    function Area(): real { width * height }
  }

  datatype Vec3 = Vec3(x: real, y: real, z: real)
  {
    function Plus(v: Vec3): Vec3 { Vec3(x + v.x, y + v.y, z + v.z) }
  }

  /** The square of `Vector3.Distance(a, b)`. */
  function DistanceSquared(a: Vec3, b: Vec3): real
  {
    (a.x - b.x) * (a.x - b.x) + (a.y - b.y) * (a.y - b.y) + (a.z - b.z) * (a.z - b.z)
  }

  /** `Vector3.Distance(a, b) <= r`, without the square root. */
  predicate Within(a: Vec3, b: Vec3, r: real)
  {
    r >= 0.0 && DistanceSquared(a, b) <= r * r
  }

  /**
   * A tile game object, reduced to the rectangle it was built from and the
   * vertical coordinate of its local position.
   */
  datatype TileObject = TileObject(rect: Rect, level: real)

  /** The rectangles the tiles were built from, in list order. */
  function Rects(ts: seq<TileObject>): (rs: seq<Rect>)
    ensures |rs| == |ts| && forall k :: 0 <= k < |ts| ==> rs[k] == ts[k].rect
  {
    if ts == [] then [] else Rects(ts[..|ts| - 1]) + [ts[|ts| - 1].rect]
  }

  lemma RectsAppend(ts: seq<TileObject>, t: TileObject)
    ensures Rects(ts + [t]) == Rects(ts) + [t.rect]
  {
    assert (ts + [t])[..|ts|] == ts;
  }

  /** Tiles for all but the last rectangle, then one for the last, cover exactly the rectangles. */
  lemma RectsSnoc(ts: seq<TileObject>, t: TileObject, rs: seq<Rect>)
    requires rs != [] && Rects(ts) == rs[..|rs| - 1] && t.rect == rs[|rs| - 1]
    ensures Rects(ts + [t]) == rs
  {
    RectsAppend(ts, t);
    assert rs == rs[..|rs| - 1] + [rs[|rs| - 1]];
  }

  /** `inner` lies inside `outer` (edges may touch). */
  predicate Inside(inner: Rect, outer: Rect)
  {
    outer.x <= inner.x && inner.Right() <= outer.Right() &&
    outer.y <= inner.y && inner.Bottom() <= outer.Bottom()
  }

  /** `a` and `b` are separated along one axis: their interiors do not overlap. */
  predicate Disjoint(a: Rect, b: Rect)
  {
    a.Right() <= b.x || b.Right() <= a.x || a.Bottom() <= b.y || b.Bottom() <= a.y
  }

  /** Sum of the areas of a list of rectangles. */
  function TotalArea(rs: seq<Rect>): real
  {
    if rs == [] then 0.0 else rs[0].Area() + TotalArea(rs[1..])
  }

  lemma {:induction false} TotalAreaAppend(a: seq<Rect>, b: seq<Rect>)
    ensures TotalArea(a + b) == TotalArea(a) + TotalArea(b)
  {
    if a == [] {
      assert a + b == b;
    } else {
      assert (a + b)[1..] == a[1..] + b;
      TotalAreaAppend(a[1..], b);
    }
  }
}

/**
 * The engine's random draws, taken as parameters. A draw `u` is the value of
 * `Random.value` (a real in [0, 1]); `Random.Range(float, float)` and
 * `Random.Range(int, int)` are expressed through such a draw.
 */
module UnityRandom {

  /** A possible value of `Random.value`. */
  predicate IsValue(u: real) { 0.0 <= u <= 1.0 }

  /** A stream of `Random.value` draws, one per index. */
  ghost predicate AllValues(d: nat -> real)
  {
    forall i :: IsValue(d(i))
  }

  /** A possible draw for the integer `Random.Range`, whose upper bound is exclusive. */
  predicate IsIntDraw(u: real) { 0.0 <= u < 1.0 }

  /** The point a fraction `u` of the way from `lo` to `hi`. */
  function Lerp(lo: real, hi: real, u: real): real
  {
    lo + u * (hi - lo)
  }

  /** `a * b` is non-negative when both factors are. */
  lemma MulNonneg(a: real, b: real)
    requires 0.0 <= a && 0.0 <= b
    ensures 0.0 <= a * b
  {
  }

  /** `a * b` is positive when both factors are. */
  lemma MulPositive(a: real, b: real)
    requires 0.0 < a && 0.0 < b
    ensures 0.0 < a * b
  {
  }

  /** Going up from `lo` towards `hi` stays between them. */
  lemma LerpUp(lo: real, hi: real, u: real)
    requires IsValue(u) && lo <= hi
    ensures lo <= Lerp(lo, hi, u) <= hi
  {
    MulNonneg(u, hi - lo);
    MulNonneg(1.0 - u, hi - lo);
  }

  /** Going down from `lo` towards `hi` stays between them. */
  lemma LerpDown(lo: real, hi: real, u: real)
    requires IsValue(u) && hi < lo
    ensures hi <= Lerp(lo, hi, u) <= lo
  {
    MulNonneg(u, lo - hi);
    MulNonneg(1.0 - u, lo - hi);
  }

  /** `Random.Range(lo, hi)` on floats: a value between the two bounds, both included. */
  function RangeF(lo: real, hi: real, u: real): (r: real)
    requires IsValue(u)
    ensures lo <= hi ==> lo <= r <= hi
    ensures hi <= lo ==> hi <= r <= lo
    ensures u == 0.0 ==> r == lo
    ensures u == 1.0 ==> r == hi
  {
    if lo <= hi then LerpUp(lo, hi, u); Lerp(lo, hi, u)
    else LerpDown(lo, hi, u); Lerp(lo, hi, u)
  }

  /**
   * `Random.Range(lo, hi)` on integers: `lo` when the range is empty,
   * otherwise an integer in [lo, hi).
   */
  function RangeI(lo: int, hi: int, u: real): (r: int)
    requires IsIntDraw(u)
    requires lo <= hi
    ensures lo == hi ==> r == lo
    ensures lo < hi ==> lo <= r < hi
  {
    if lo == hi then lo
    else
      var span := (hi - lo) as real;
      assert 0.0 <= u * span < span by {
        MulNonneg(u, span);
        MulPositive(1.0 - u, span);
      }
      var k := (u * span).Floor;
      assert 0 <= k < hi - lo;
      lo + k
  }
}
