/**
 * The patrol route of the navmesh AIs: on each arrival the patrol index
 * moves one step forward modulo the number of patrol points, so the enemy
 * walks the points in order and starts over after the last one.
 */
module PatrolRoute {

  /** The index after one arrival. */
  function NextIndex(i: int, n: int): (j: int)
    requires 0 <= i < n
    ensures 0 <= j < n
    ensures i < n - 1 ==> j == i + 1
    ensures i == n - 1 ==> j == 0
  {
    (i + 1) % n
  }

  /** The index after `k` arrivals. */
  function AfterArrivals(i: int, n: int, k: nat): (j: int)
    requires 0 <= i < n
    ensures 0 <= j < n
  {
    if k == 0 then i else NextIndex(AfterArrivals(i, n, k - 1), n)
  }

  /** Before the end of the route, `k` arrivals move the index `k` places forward. */
  lemma {:induction false} Walk(i: int, n: int, k: nat)
    requires 0 <= i && i + k < n
    ensures AfterArrivals(i, n, k) == i + k
  {
    if k > 0 {
      Walk(i, n, k - 1);
    }
  }

  /** Arriving at the last point sends the enemy back to the first. */
  lemma WrapsToFirst(i: int, n: int)
    requires 0 <= i < n
    ensures AfterArrivals(i, n, n - i) == 0
  {
    Walk(i, n, n - i - 1);
  }

  /** `a` arrivals followed by `b` more are `a + b` arrivals. */
  lemma {:induction false} Compose(i: int, n: int, a: nat, b: nat)
    requires 0 <= i < n
    ensures AfterArrivals(i, n, a + b) == AfterArrivals(AfterArrivals(i, n, a), n, b)
  {
    if b > 0 {
      Compose(i, n, a, b - 1);
    }
  }

  /** A full lap of `n` arrivals brings the enemy back to the point it started from. */
  lemma FullLap(i: int, n: int)
    requires 0 <= i < n
    ensures AfterArrivals(i, n, n) == i
  {
    WrapsToFirst(i, n);
    Compose(i, n, n - i, i);
    if i > 0 {
      Walk(0, n, i);
    }
  }

  /** Within one lap every patrol point is the destination at some arrival. */
  lemma VisitsEveryPoint(i: int, n: int, target: int)
    requires 0 <= i < n && 0 <= target < n
    ensures exists k: nat :: k < n && AfterArrivals(i, n, k) == target
  {
    if i <= target {
      Walk(i, n, target - i);
      assert AfterArrivals(i, n, target - i) == target;
    } else {
      WrapsToFirst(i, n);
      Compose(i, n, n - i, target);
      Walk(0, n, target);
      assert AfterArrivals(i, n, n - i + target) == target;
    }
  }
}
