/**
 * The enemies module's `EnemySpawner`: it spends the stage's weight budget
 * on enemy groups, drops each group on a random spawnable tile, and gives
 * the group a patrol path made of nearby tiles, ordered by their angle
 * around the spawn point. Random draws are parameters, indexed by the
 * iteration of the budget loop; the angle of a tile (`Mathf.Atan2` of its
 * direction from the spawn point) is an abstract key.
 */
module EnemySpawner {
  import opened Geometry
  import opened UnityRandom
  import opened Wrappers
  import opened Sorting
  import opened SpawnBudget

  /** The raise that keeps a patrol point off the ground. */
  const Up: Vec3 := Vec3(0.0, 1.0, 0.0)

  /** A tile worth patrolling to: within the search radius, and more than 2 units from the centre. */
  predicate IsCandidate(t: Vec3, center: Vec3, radius: real)
  {
    Within(t, center, radius) && !Within(t, center, 2.0)
  }

  /** The two `Where` filters, in list order. */
  function Candidates(tiles: seq<Vec3>, center: Vec3, radius: real): (r: seq<Vec3>)
    ensures |r| <= |tiles|
    ensures forall t :: t in r <==> t in tiles && IsCandidate(t, center, radius)
  {
    if tiles == [] then []
    else
      assert forall t :: t in tiles <==> t == tiles[0] || t in tiles[1..];
      (if IsCandidate(tiles[0], center, radius) then [tiles[0]] else []) + Candidates(tiles[1..], center, radius)
  }

  /** The element and key pairs `OrderBy(x => Random.value)` sorts: the j-th element draws `keys(j)`. */
  function Keyed(xs: seq<Vec3>, keys: nat -> real): (ps: seq<(Vec3, real)>)
    ensures |ps| == |xs| && forall j :: 0 <= j < |xs| ==> ps[j] == (xs[j], keys(j))
  {
    seq(|xs|, j requires 0 <= j < |xs| => (xs[j], keys(j)))
  }

  function DrawnKey(p: (Vec3, real)): real { p.1 }

  function Element(p: (Vec3, real)): Vec3 { p.0 }

  /**
   * `OrderBy(x => Random.value)`: the elements sorted by their drawn keys.
   * Shuffling only reorders: every element keeps its number of copies.
   */
  function Shuffle(xs: seq<Vec3>, keys: nat -> real): (r: seq<Vec3>)
    ensures |r| == |xs|
    ensures multiset(r) == multiset(xs)
  {
    var sorted := SortBy(Keyed(xs, keys), DrawnKey);
    ProjectPermutation(sorted, Keyed(xs, keys), Element);
    assert Project(Keyed(xs, keys), Element) == xs;
    Project(sorted, Element)
  }

  /**
   * The shuffle is the input reordered by the keys: the elements of a
   * rearrangement of the (element, key) pairs whose keys ascend.
   */
  lemma ShuffleByKeys(xs: seq<Vec3>, keys: nat -> real)
    ensures exists sorted: seq<(Vec3, real)> ::
      multiset(sorted) == multiset(Keyed(xs, keys)) && SortedBy(sorted, DrawnKey) &&
      Shuffle(xs, keys) == Project(sorted, Element)
  {
    var sorted := SortBy(Keyed(xs, keys), DrawnKey);
    assert Shuffle(xs, keys) == Project(sorted, Element);
  }

  /** `Take(n)`: the first `n` elements, all of them when there are fewer. */
  function Take(s: seq<Vec3>, n: int): (r: seq<Vec3>)
    ensures |r| == if n <= 0 then 0 else if n < |s| then n else |s|
    ensures forall t :: t in r ==> t in s
  {
    if n <= 0 then [] else if n >= |s| then s else s[..n]
  }

  /**
   * The tiles `GenerateLogicalPatrolPoints` picks before ordering them: up
   * to `count` shuffled candidates, or one random tile when that leaves none.
   */
  function ChosenTiles(tiles: seq<Vec3>, center: Vec3, radius: real, count: int,
                       keys: nat -> real, fallback: real): (c: seq<Vec3>)
    requires |tiles| > 0 && IsIntDraw(fallback)
    ensures 1 <= |c| <= if count > 1 then count else 1
    ensures forall t :: t in c ==> t in tiles
    ensures |Candidates(tiles, center, radius)| > 0 && count > 0 ==>
      |c| == (if count < |Candidates(tiles, center, radius)| then count else |Candidates(tiles, center, radius)|) &&
      forall t :: t in c ==> IsCandidate(t, center, radius)
    ensures |Candidates(tiles, center, radius)| == 0 || count <= 0 ==>
      c == [tiles[RangeI(0, |tiles|, fallback)]]
  {
    var candidates := Candidates(tiles, center, radius);
    var shuffled := Shuffle(candidates, keys);
    assert forall t :: t in shuffled ==> t in candidates by {
      forall t | t in shuffled ensures t in candidates {
        assert t in multiset(shuffled);
      }
    }
    var picked := Take(shuffled, count);
    if picked == [] then [tiles[RangeI(0, |tiles|, fallback)]] else picked
  }

  /** The chosen tiles sorted by their angle around the spawn point. */
  function PatrolTiles(tiles: seq<Vec3>, center: Vec3, radius: real, count: int,
                       keys: nat -> real, fallback: real, angle: Vec3 -> real): (r: seq<Vec3>)
    requires |tiles| > 0 && IsIntDraw(fallback)
    ensures 1 <= |r|
    ensures |r| <= if count > 1 then count else 1
    ensures forall t :: t in r ==> t in tiles
    ensures |Candidates(tiles, center, radius)| > 0 && count > 0 ==>
      |r| == (if count < |Candidates(tiles, center, radius)| then count else |Candidates(tiles, center, radius)|) &&
      forall t :: t in r ==> IsCandidate(t, center, radius)
    ensures |Candidates(tiles, center, radius)| == 0 || count <= 0 ==>
      r == [tiles[RangeI(0, |tiles|, fallback)]]
    ensures SortedBy(r, angle)
  {
    var chosen := ChosenTiles(tiles, center, radius, count, keys, fallback);
    SortKeeps(chosen, angle);
    SortBy(chosen, angle)
  }

  /** One patrol point per tile, raised by one unit, in the same order. */
  function Raised(ts: seq<Vec3>): (ps: seq<Vec3>)
    ensures |ps| == |ts|
    ensures forall k :: 0 <= k < |ts| ==> ps[k] == ts[k].Plus(Up)
  {
    seq(|ts|, k requires 0 <= k < |ts| => ts[k].Plus(Up))
  }

  /** `GenerateLogicalPatrolPoints`: the patrol tiles, each raised into a patrol point. */
  function LogicalPatrolPoints(tiles: seq<Vec3>, center: Vec3, radius: real, count: int,
                               keys: nat -> real, fallback: real, angle: Vec3 -> real): (ps: seq<Vec3>)
    requires |tiles| > 0 && IsIntDraw(fallback)
    ensures 1 <= |ps| <= if count > 1 then count else 1
  {
    Raised(PatrolTiles(tiles, center, radius, count, keys, fallback, angle))
  }

  /**
   * The draws of the budget loop's i-th iteration: which affordable group,
   * which tile, how many patrol points, the shuffle keys and the fallback
   * tile; `angle` is the angle key of a tile around a spawn point.
   */
  datatype SpawnDraws = SpawnDraws(group: nat -> real, tile: nat -> real, count: nat -> real,
                                   keys: nat -> nat -> real, fallback: nat -> real,
                                   angle: Vec3 -> Vec3 -> real)
  {
    ghost predicate Valid()
    {
      forall i :: IsIntDraw(group(i)) && IsIntDraw(tile(i)) && IsIntDraw(count(i)) && IsIntDraw(fallback(i))
    }
  }

  /** The group the i-th iteration spawns, with `budget` left. */
  function GroupFor(tiles: seq<Vec3>, pool: seq<EnemySpawnData>, budget: int, i: nat,
                    minPoints: int, maxPoints: int, radius: real, draws: SpawnDraws): (g: SpawnedGroup)
    requires |tiles| > 0 && draws.Valid() && minPoints <= maxPoints
    requires |Affordable(pool, budget)| > 0
    ensures g.data in pool && g.data.weight <= budget
    ensures g.position in tiles
    ensures 1 <= |g.patrolPoints| <= if maxPoints > 1 then maxPoints else 1
  {
    var affordable := Affordable(pool, budget);
    var data := affordable[RangeI(0, |affordable|, draws.group(i))];
    assert data in affordable;
    var position := tiles[RangeI(0, |tiles|, draws.tile(i))];
    assert IsIntDraw(draws.count(i)) && IsIntDraw(draws.fallback(i));
    var count := RangeI(minPoints, maxPoints + 1, draws.count(i));
    var points := LogicalPatrolPoints(tiles, position, radius, count,
                                      draws.keys(i), draws.fallback(i), draws.angle(position));
    SpawnedGroup(data, position, points)
  }

  /** Every group was drawn from the pool and stands on one of the tiles. */
  predicate Drawn(added: seq<SpawnedGroup>, pool: seq<EnemySpawnData>, tiles: seq<Vec3>)
  {
    forall k :: 0 <= k < |added| ==> added[k].data in pool && added[k].position in tiles
  }

  lemma DrawnAppend(added: seq<SpawnedGroup>, g: SpawnedGroup, pool: seq<EnemySpawnData>, tiles: seq<Vec3>)
    requires Drawn(added, pool, tiles) && g.data in pool && g.position in tiles
    ensures Drawn(added + [g], pool, tiles)
  {
  }

  /** `g` is the group spawned by the turn after the groups `before`. */
  ghost predicate TurnOf(g: SpawnedGroup, before: seq<SpawnedGroup>, tiles: seq<Vec3>, pool: seq<EnemySpawnData>,
                         initialBudget: int, minPoints: int, maxPoints: int, radius: real, draws: SpawnDraws)
  {
    |tiles| > 0 && draws.Valid() && minPoints <= maxPoints &&
    |Affordable(pool, initialBudget - TotalWeight(before))| > 0 &&
    g == GroupFor(tiles, pool, initialBudget - TotalWeight(before), |before|, minPoints, maxPoints, radius, draws)
  }

  /**
   * Each group is the one its loop turn spawns: the k-th group is
   * `GroupFor` with iteration number k and the budget left after the
   * groups before it.
   */
  ghost predicate Turns(added: seq<SpawnedGroup>, tiles: seq<Vec3>, pool: seq<EnemySpawnData>, initialBudget: int,
                        minPoints: int, maxPoints: int, radius: real, draws: SpawnDraws)
  {
    forall k {:trigger TurnOf(added[k], added[..k], tiles, pool, initialBudget, minPoints, maxPoints, radius, draws)} ::
      0 <= k < |added| ==>
      TurnOf(added[k], added[..k], tiles, pool, initialBudget, minPoints, maxPoints, radius, draws)
  }

  /** The next loop turn's group extends the turns. */
  lemma TurnsAppend(added: seq<SpawnedGroup>, tiles: seq<Vec3>, pool: seq<EnemySpawnData>, initialBudget: int,
                    minPoints: int, maxPoints: int, radius: real, draws: SpawnDraws, g: SpawnedGroup)
    requires Turns(added, tiles, pool, initialBudget, minPoints, maxPoints, radius, draws)
    requires TurnOf(g, added, tiles, pool, initialBudget, minPoints, maxPoints, radius, draws)
    ensures Turns(added + [g], tiles, pool, initialBudget, minPoints, maxPoints, radius, draws)
  {
    var after := added + [g];
    forall k | 0 <= k < |after|
      ensures TurnOf(after[k], after[..k], tiles, pool, initialBudget, minPoints, maxPoints, radius, draws)
    {
      if k < |added| {
        TurnKept(added, tiles, pool, initialBudget, minPoints, maxPoints, radius, draws, g, k);
      } else {
        assert after[..k] == added;
      }
    }
  }

  /** An earlier turn stays the same turn after one more group. */
  lemma TurnKept(added: seq<SpawnedGroup>, tiles: seq<Vec3>, pool: seq<EnemySpawnData>, initialBudget: int,
                 minPoints: int, maxPoints: int, radius: real, draws: SpawnDraws, g: SpawnedGroup, k: nat)
    requires Turns(added, tiles, pool, initialBudget, minPoints, maxPoints, radius, draws)
    requires k < |added|
    ensures TurnOf((added + [g])[k], (added + [g])[..k], tiles, pool, initialBudget, minPoints, maxPoints, radius, draws)
  {
    assert (added + [g])[k] == added[k] && (added + [g])[..k] == added[..k];
    assert TurnOf(added[k], added[..k], tiles, pool, initialBudget, minPoints, maxPoints, radius, draws);
  }

  /**
   * Every group the loop spawned has what `GroupFor` promises: an entry of
   * the pool that fitted the budget left, a level tile, and between 1 and
   * max(maxPoints, 1) patrol points.
   */
  lemma TurnsGroups(added: seq<SpawnedGroup>, tiles: seq<Vec3>, pool: seq<EnemySpawnData>, initialBudget: int,
                    minPoints: int, maxPoints: int, radius: real, draws: SpawnDraws, k: nat)
    requires Turns(added, tiles, pool, initialBudget, minPoints, maxPoints, radius, draws)
    requires k < |added|
    ensures added[k].data in pool && added[k].data.weight <= initialBudget - TotalWeight(added[..k])
    ensures added[k].position in tiles
    ensures 1 <= |added[k].patrolPoints| <= if maxPoints > 1 then maxPoints else 1
  {
    assert TurnOf(added[k], added[..k], tiles, pool, initialBudget, minPoints, maxPoints, radius, draws);
  }

  /** What the budget loop promises about the groups it spawned from `initialBudget`. */
  predicate BudgetSpent(added: seq<SpawnedGroup>, tiles: seq<Vec3>, pool: seq<EnemySpawnData>, initialBudget: int)
  {
    var left := initialBudget - TotalWeight(added);
    |added| <= 100 &&
    (added != [] ==> 0 <= left) &&
    |added| <= (if initialBudget > 0 then initialBudget else 0) &&
    (|added| == 100 || left <= 0 || Affordable(pool, left) == []) &&
    Drawn(added, pool, tiles)
  }

  /** `after` is `before` followed by groups the budget loop may spawn. */
  ghost predicate SpawnedAfter(before: seq<SpawnedGroup>, after: seq<SpawnedGroup>, tiles: seq<Vec3>,
                               pool: seq<EnemySpawnData>, initialBudget: int,
                               minPoints: int, maxPoints: int, radius: real, draws: SpawnDraws)
  {
    exists added :: after == before + added && BudgetSpent(added, tiles, pool, initialBudget) &&
      Turns(added, tiles, pool, initialBudget, minPoints, maxPoints, radius, draws)
  }

  lemma SpawnedAfterHolds(before: seq<SpawnedGroup>, added: seq<SpawnedGroup>, tiles: seq<Vec3>,
                          pool: seq<EnemySpawnData>, initialBudget: int,
                          minPoints: int, maxPoints: int, radius: real, draws: SpawnDraws)
    requires Turns(added, tiles, pool, initialBudget, minPoints, maxPoints, radius, draws)
    requires |added| <= 100
    requires added != [] ==> 0 <= initialBudget - TotalWeight(added)
    requires |added| <= if initialBudget > 0 then initialBudget else 0
    requires var left := initialBudget - TotalWeight(added);
      |added| == 100 || left <= 0 || Affordable(pool, left) == []
    requires Drawn(added, pool, tiles)
    ensures SpawnedAfter(before, before + added, tiles, pool, initialBudget, minPoints, maxPoints, radius, draws)
  {
    assert BudgetSpent(added, tiles, pool, initialBudget);
  }

  /** Groups drawn from a pool whose costs are at least 1 are no more than their total cost. */
  lemma FromPoolWithinWeight(added: seq<SpawnedGroup>, pool: seq<EnemySpawnData>)
    requires ValidPool(pool)
    requires forall k :: 0 <= k < |added| ==> added[k].data in pool
    ensures |added| <= TotalWeight(added)
  {
    assert AllPositive(added) by {
      forall k | 0 <= k < |added| ensures added[k].data.weight >= 1 {
        var e := added[k].data;
        assert e in pool;
      }
    }
    CountWithinWeight(added);
  }

  /**
   * One turn of the budget loop: the group `GroupFor` draws with the budget
   * left after `added`, which extends the turns taken so far.
   */
  method SpawnTurn(tiles: seq<Vec3>, pool: seq<EnemySpawnData>, initialBudget: int, added: seq<SpawnedGroup>,
                   minPoints: int, maxPoints: int, radius: real, draws: SpawnDraws)
    returns (group: SpawnedGroup)
    requires |tiles| > 0 && draws.Valid() && minPoints <= maxPoints
    requires |Affordable(pool, initialBudget - TotalWeight(added))| > 0
    requires Drawn(added, pool, tiles)
    requires Turns(added, tiles, pool, initialBudget, minPoints, maxPoints, radius, draws)
    ensures group.data in pool && group.data.weight <= initialBudget - TotalWeight(added)
    ensures TotalWeight(added + [group]) == TotalWeight(added) + group.data.weight
    ensures Drawn(added + [group], pool, tiles)
    ensures Turns(added + [group], tiles, pool, initialBudget, minPoints, maxPoints, radius, draws)
  {
    group := GroupFor(tiles, pool, initialBudget - TotalWeight(added), |added|, minPoints, maxPoints, radius, draws);
    TotalWeightAppend(added, group);
    DrawnAppend(added, group, pool, tiles);
    TurnsAppend(added, tiles, pool, initialBudget, minPoints, maxPoints, radius, draws, group);
  }

  /**
   * The budget loop of `SpawnEnemies`: starting from `initialBudget`, spawn
   * affordable groups until the budget is spent, nothing is affordable, or
   * 100 groups have been spawned. The groups come back in spawn order; the
   * budget never goes negative, and since each costs at least 1, there are
   * never more groups than the initial budget. With no tiles, the first
   * iteration that finds an affordable group indexes the empty tile list
   * and throws (`thrown`), before anything is spawned.
   */
  method SpendBudget(tiles: seq<Vec3>, pool: seq<EnemySpawnData>, initialBudget: int,
                     minPoints: int, maxPoints: int, radius: real, draws: SpawnDraws)
    returns (added: seq<SpawnedGroup>, thrown: bool)
    requires draws.Valid() && minPoints <= maxPoints && ValidPool(pool)
    ensures thrown <==> |tiles| == 0 && initialBudget > 0 && Affordable(pool, initialBudget) != []
    ensures thrown ==> added == []
    ensures |added| <= 100
    ensures added != [] ==> 0 <= initialBudget - TotalWeight(added)
    ensures |added| <= if initialBudget > 0 then initialBudget else 0
    ensures var left := initialBudget - TotalWeight(added);
      !thrown ==> |added| == 100 || left <= 0 || Affordable(pool, left) == []
    ensures Drawn(added, pool, tiles)
    ensures Turns(added, tiles, pool, initialBudget, minPoints, maxPoints, radius, draws)
  {
    var currentBudget := initialBudget;
    var safetyBreak := 0;
    added := [];
    thrown := false;
    while currentBudget > 0 && safetyBreak < 100
      invariant 0 <= safetyBreak <= 100 && |added| == safetyBreak
      invariant currentBudget == initialBudget - TotalWeight(added)
      invariant added != [] ==> 0 <= currentBudget && |tiles| > 0
      invariant Drawn(added, pool, tiles)
      invariant Turns(added, tiles, pool, initialBudget, minPoints, maxPoints, radius, draws)
      decreases 100 - safetyBreak
    {
      if |Affordable(pool, currentBudget)| == 0 {
        break;
      }
      if |tiles| == 0 {
        thrown := true;
        return;
      }
      var group := SpawnTurn(tiles, pool, initialBudget, added, minPoints, maxPoints, radius, draws);
      added := added + [group];
      currentBudget := currentBudget - group.data.weight;
      safetyBreak := safetyBreak + 1;
    }
    FromPoolWithinWeight(added, pool);
  }

  class EnemySpawner {
    /** `stageConfig`, None when it is not assigned. */
    var stageConfig: Option<StageSpawnConfig>
    var minPatrolPoints: int
    var maxPatrolPoints: int
    var patrolPointSearchRadius: real
    /** The groups under `enemyContainer`, in spawn order. */
    var spawnedGroups: seq<SpawnedGroup>

    /** Every cost in the pool is at least 1, and the patrol point range is not empty. */
    ghost predicate Valid()
      reads this
    {
      minPatrolPoints <= maxPatrolPoints &&
      (stageConfig.Some? ==> ValidPool(stageConfig.value.enemySpawnPool))
    }

    /**
     * `SpawnEnemies`: with no stage configuration nothing happens;
     * otherwise the budget starts at the base budget plus 10 per stage and
     * the groups `SpendBudget` spawns are added under the container. The
     * tiles are not used up, so several groups may share a tile. An empty
     * tile list is harmless unless a group is affordable, when the source
     * throws (`thrown`) and nothing is spawned.
     */
    method SpawnEnemies(spawnableTiles: seq<Vec3>, stage: int, draws: SpawnDraws) returns (thrown: bool)
      requires Valid() && draws.Valid()
      modifies this
      ensures stageConfig == old(stageConfig) && minPatrolPoints == old(minPatrolPoints)
      ensures maxPatrolPoints == old(maxPatrolPoints)
      ensures patrolPointSearchRadius == old(patrolPointSearchRadius)
      ensures Valid()
      ensures stageConfig.None? ==> spawnedGroups == old(spawnedGroups)
      ensures thrown <==>
        (stageConfig.Some? && |spawnableTiles| == 0 &&
         stageConfig.value.baseWeightBudget + stage * 10 > 0 &&
         Affordable(stageConfig.value.enemySpawnPool, stageConfig.value.baseWeightBudget + stage * 10) != [])
      ensures thrown ==> spawnedGroups == old(spawnedGroups)
      ensures stageConfig.Some? && !thrown ==>
        SpawnedAfter(old(spawnedGroups), spawnedGroups, spawnableTiles, stageConfig.value.enemySpawnPool,
                     stageConfig.value.baseWeightBudget + stage * 10,
                     minPatrolPoints, maxPatrolPoints, patrolPointSearchRadius, draws)
    {
      thrown := false;
      if stageConfig.None? {
        return;
      }
      var config := stageConfig.value;
      var added;
      added, thrown := SpendBudget(spawnableTiles, config.enemySpawnPool, config.baseWeightBudget + stage * 10,
                               minPatrolPoints, maxPatrolPoints, patrolPointSearchRadius, draws);
      if thrown {
        return;
      }
      SpawnedAfterHolds(spawnedGroups, added, spawnableTiles, config.enemySpawnPool, config.baseWeightBudget + stage * 10,
                        minPatrolPoints, maxPatrolPoints, patrolPointSearchRadius, draws);
      spawnedGroups := spawnedGroups + added;
    }
  }
}
