/**
 * The arena's `EnemySpawner`: the same weight budget as the enemies
 * module's spawner, but every group takes its spawn tile out of the list,
 * stands at a random offset above it, and gets patrol points sampled on
 * the navigation mesh around it. `Mathf.Pow(2, (stage - 1) / 4)` is an
 * input; the navigation mesh's `SamplePosition` is an oracle that either
 * finds a point or does not.
 */
module ArenaSpawner {
  import opened Geometry
  import opened UnityRandom
  import opened Wrappers
  import opened SpawnBudget

  /** The `(int)` cast of C#: truncation toward zero. */
  function Truncate(x: real): (n: int)
    ensures 0.0 <= x ==> n as real <= x < n as real + 1.0
    ensures x < 0.0 ==> n as real - 1.0 < x <= n as real
  {
    if 0.0 <= x then x.Floor else -((-x).Floor)
  }

  /** The stage's starting budget: the base budget times the growth factor, truncated. */
  function StageBudget(baseWeightBudget: int, growth: real): (b: int)
    ensures 0 <= baseWeightBudget && 0.0 <= growth ==> 0 <= b
    ensures growth == 1.0 ==> b == baseWeightBudget
  {
    if 0 <= baseWeightBudget && 0.0 <= growth then
      MulNonneg(baseWeightBudget as real, growth);
      Truncate(baseWeightBudget as real * growth)
    else
      Truncate(baseWeightBudget as real * growth)
  }

  /** A spawn position: up to 2 units off the tile on x and z, and 1 unit above it. */
  predicate NearTile(tile: Vec3, p: Vec3)
  {
    -2.0 <= p.x - tile.x <= 2.0 && p.y == tile.y + 1.0 && -2.0 <= p.z - tile.z <= 2.0
  }

  /** The tile under a spawn, shifted by the two offset draws. */
  function Offset(tile: Vec3, ux: real, uz: real): (p: Vec3)
    requires IsValue(ux) && IsValue(uz)
    ensures NearTile(tile, p)
  {
    tile.Plus(Vec3(RangeF(-2.0, 2.0, ux), 1.0, RangeF(-2.0, 2.0, uz)))
  }

  /** The points the first `n` samples found, in sampling order. */
  function Found(samples: nat -> Option<Vec3>, n: nat): (ps: seq<Vec3>)
    ensures |ps| <= n
  {
    if n == 0 then []
    else Found(samples, n - 1) + (if samples(n - 1).Some? then [samples(n - 1).value] else [])
  }

  /** Every point is one a sample found. */
  lemma {:induction false} FoundSound(samples: nat -> Option<Vec3>, n: nat)
    ensures forall p :: p in Found(samples, n) ==> exists i :: 0 <= i < n && samples(i) == Some(p)
  {
    if n > 0 {
      FoundSound(samples, n - 1);
      forall p | p in Found(samples, n) ensures exists i :: 0 <= i < n && samples(i) == Some(p) {
        if p !in Found(samples, n - 1) {
          assert samples(n - 1) == Some(p);
        }
      }
    }
  }

  /** Every sample that found a point contributes it. */
  lemma {:induction false} FoundComplete(samples: nat -> Option<Vec3>, n: nat, i: nat)
    requires i < n && samples(i).Some?
    ensures samples(i).value in Found(samples, n)
  {
    if i < n - 1 {
      FoundComplete(samples, n - 1, i);
    }
  }

  /**
   * `GeneratePatrolPointsForGroup`'s loop: `count` tries, each keeping the
   * navigation mesh point its sample found.
   */
  method PatrolPointsForGroup(count: int, samples: nat -> Option<Vec3>) returns (points: seq<Vec3>)
    ensures points == Found(samples, if count > 0 then count else 0)
  {
    points := [];
    var i := 0;
    while i < count
      invariant 0 <= i <= (if count > 0 then count else 0)
      invariant points == Found(samples, i)
    {
      var hit := samples(i);
      if hit.Some? {
        points := points + [hit.value];
      }
      i := i + 1;
    }
  }

  /** The spawnable tiles the level hands over; the spawner removes each tile it uses. */
  class SpawnableTiles {
    var positions: seq<Vec3>

    constructor (ps: seq<Vec3>)
      ensures positions == ps
    {
      positions := ps;
    }

    /** `RemoveAt(i)`: the list without its i-th tile, the rest in order. */
    method RemoveAt(i: int)
      requires 0 <= i < |positions|
      modifies this
      ensures positions == old(positions[..i] + positions[i + 1..])
      ensures multiset(positions) + multiset{old(positions[i])} == multiset(old(positions))
    {
      assert positions == positions[..i] + [positions[i]] + positions[i + 1..];
      positions := positions[..i] + positions[i + 1..];
    }
  }

  /**
   * The draws of the budget loop's i-th iteration: the group, the tile, the
   * two offsets, the number of patrol points, and the j-th patrol sample.
   */
  datatype ArenaDraws = ArenaDraws(group: nat -> real, tile: nat -> real, offsetX: nat -> real,
                                   offsetZ: nat -> real, count: nat -> real,
                                   sample: nat -> nat -> Option<Vec3>)
  {
    ghost predicate Valid()
    {
      forall i :: IsIntDraw(group(i)) && IsIntDraw(tile(i)) && IsValue(offsetX(i)) &&
                  IsValue(offsetZ(i)) && IsIntDraw(count(i))
    }
  }

  /**
   * The groups spawned on `used`, one tile each, and the remaining tiles:
   * together with the used ones, exactly the tiles there were.
   */
  ghost predicate SpawnedOn(added: seq<SpawnedGroup>, used: seq<Vec3>, remaining: seq<Vec3>, before: seq<Vec3>)
  {
    |used| == |added| &&
    (forall k :: 0 <= k < |added| ==> NearTile(used[k], added[k].position)) &&
    multiset(remaining) + multiset(used) == multiset(before)
  }

  /** Spawning one more group on a tile taken out of the remaining ones keeps the account. */
  lemma SpawnedOnStep(added: seq<SpawnedGroup>, used: seq<Vec3>, remaining: seq<Vec3>, before: seq<Vec3>,
                      g: SpawnedGroup, tile: Vec3, rest: seq<Vec3>)
    requires SpawnedOn(added, used, remaining, before)
    requires NearTile(tile, g.position) && multiset(rest) + multiset{tile} == multiset(remaining)
    ensures SpawnedOn(added + [g], used + [tile], rest, before)
  {
    assert multiset(used + [tile]) == multiset(used) + multiset{tile};
  }

  /** The budget loop's facts about the groups spawned from `initialBudget`. */
  predicate BudgetKept(added: seq<SpawnedGroup>, pool: seq<EnemySpawnData>, initialBudget: int)
  {
    |added| <= 100 &&
    (added != [] ==> 0 <= initialBudget - TotalWeight(added)) &&
    forall k :: 0 <= k < |added| ==> added[k].data in pool
  }

  /** The group the i-th iteration spawns on `tile`, with `budget` left. */
  function GroupOn(tile: Vec3, pool: seq<EnemySpawnData>, budget: int, i: nat,
                   minPoints: int, maxPoints: int, draws: ArenaDraws): (g: SpawnedGroup)
    requires draws.Valid() && minPoints <= maxPoints
    requires |Affordable(pool, budget)| > 0
    ensures g.data in pool && g.data.weight <= budget
    ensures NearTile(tile, g.position)
    ensures |g.patrolPoints| <= if maxPoints > 0 then maxPoints else 0
  {
    var affordable := Affordable(pool, budget);
    var data := affordable[RangeI(0, |affordable|, draws.group(i))];
    assert data in affordable;
    assert IsIntDraw(draws.count(i)) && IsValue(draws.offsetX(i)) && IsValue(draws.offsetZ(i));
    var count := RangeI(minPoints, maxPoints + 1, draws.count(i));
    var n := if count > 0 then count else 0;
    SpawnedGroup(data, Offset(tile, draws.offsetX(i), draws.offsetZ(i)), Found(draws.sample(i), n))
  }

  /** `g` is the group spawned on `tile` by the turn after the groups `before`. */
  ghost predicate TurnOn(g: SpawnedGroup, tile: Vec3, before: seq<SpawnedGroup>, pool: seq<EnemySpawnData>,
                         initialBudget: int, minPoints: int, maxPoints: int, draws: ArenaDraws)
  {
    draws.Valid() && minPoints <= maxPoints &&
    |Affordable(pool, initialBudget - TotalWeight(before))| > 0 &&
    g == GroupOn(tile, pool, initialBudget - TotalWeight(before), |before|, minPoints, maxPoints, draws)
  }

  /**
   * Each group is the one its loop turn spawns on its used tile: the k-th
   * group is `GroupOn(used[k])` with iteration number k and the budget left
   * after the groups before it.
   */
  ghost predicate TurnsOn(added: seq<SpawnedGroup>, used: seq<Vec3>, pool: seq<EnemySpawnData>, initialBudget: int,
                          minPoints: int, maxPoints: int, draws: ArenaDraws)
  {
    |used| == |added| &&
    forall k {:trigger TurnOn(added[k], used[k], added[..k], pool, initialBudget, minPoints, maxPoints, draws)} ::
      0 <= k < |added| ==>
      TurnOn(added[k], used[k], added[..k], pool, initialBudget, minPoints, maxPoints, draws)
  }

  /** An earlier turn stays the same turn after one more group on one more tile. */
  lemma TurnOnKept(added: seq<SpawnedGroup>, used: seq<Vec3>, pool: seq<EnemySpawnData>, initialBudget: int,
                   minPoints: int, maxPoints: int, draws: ArenaDraws, g: SpawnedGroup, tile: Vec3, k: nat)
    requires TurnsOn(added, used, pool, initialBudget, minPoints, maxPoints, draws)
    requires k < |added|
    ensures TurnOn((added + [g])[k], (used + [tile])[k], (added + [g])[..k], pool, initialBudget,
                   minPoints, maxPoints, draws)
  {
    assert (added + [g])[k] == added[k] && (used + [tile])[k] == used[k] && (added + [g])[..k] == added[..k];
    assert TurnOn(added[k], used[k], added[..k], pool, initialBudget, minPoints, maxPoints, draws);
  }

  /** The next loop turn's group, on the tile it used, extends the turns. */
  lemma TurnsOnAppend(added: seq<SpawnedGroup>, used: seq<Vec3>, pool: seq<EnemySpawnData>, initialBudget: int,
                      minPoints: int, maxPoints: int, draws: ArenaDraws, g: SpawnedGroup, tile: Vec3)
    requires TurnsOn(added, used, pool, initialBudget, minPoints, maxPoints, draws)
    requires TurnOn(g, tile, added, pool, initialBudget, minPoints, maxPoints, draws)
    ensures TurnsOn(added + [g], used + [tile], pool, initialBudget, minPoints, maxPoints, draws)
  {
    var after := added + [g];
    var usedAfter := used + [tile];
    forall k | 0 <= k < |after|
      ensures TurnOn(after[k], usedAfter[k], after[..k], pool, initialBudget, minPoints, maxPoints, draws)
    {
      if k < |added| {
        TurnOnKept(added, used, pool, initialBudget, minPoints, maxPoints, draws, g, tile, k);
      } else {
        assert after[..k] == added;
      }
    }
  }

  /**
   * Every group the loop spawned has what `GroupOn` promises: an entry of
   * the pool that fitted the budget left, a position near its own used
   * tile, and at most maxPoints patrol points, each a point the navigation
   * mesh found for one of its turn's samples.
   */
  lemma TurnsOnGroups(added: seq<SpawnedGroup>, used: seq<Vec3>, pool: seq<EnemySpawnData>, initialBudget: int,
                      minPoints: int, maxPoints: int, draws: ArenaDraws, k: nat)
    requires TurnsOn(added, used, pool, initialBudget, minPoints, maxPoints, draws)
    requires k < |added|
    ensures added[k].data in pool && added[k].data.weight <= initialBudget - TotalWeight(added[..k])
    ensures NearTile(used[k], added[k].position)
    ensures |added[k].patrolPoints| <= if maxPoints > 0 then maxPoints else 0
    ensures forall p :: p in added[k].patrolPoints ==> exists i :: 0 <= i && draws.sample(k)(i) == Some(p)
  {
    assert TurnOn(added[k], used[k], added[..k], pool, initialBudget, minPoints, maxPoints, draws);
    var n := |added[k].patrolPoints|;
    var count := RangeI(minPoints, maxPoints + 1, draws.count(k));
    FoundSound(draws.sample(k), if count > 0 then count else 0);
  }

  lemma BudgetKeptStep(added: seq<SpawnedGroup>, pool: seq<EnemySpawnData>, initialBudget: int, g: SpawnedGroup)
    requires BudgetKept(added, pool, initialBudget) && |added| < 100 && g.data in pool
    requires 0 <= initialBudget - TotalWeight(added) - g.data.weight
    ensures BudgetKept(added + [g], pool, initialBudget)
  {
    TotalWeightAppend(added, g);
  }

  /**
   * What the budget loop leaves behind: the budget kept, one used tile per
   * group, and a reason to stop.
   */
  ghost predicate TilesSpent(added: seq<SpawnedGroup>, pool: seq<EnemySpawnData>, initialBudget: int,
                             remaining: seq<Vec3>, before: seq<Vec3>,
                             minPoints: int, maxPoints: int, draws: ArenaDraws)
  {
    var left := initialBudget - TotalWeight(added);
    BudgetKept(added, pool, initialBudget) &&
    (exists used :: SpawnedOn(added, used, remaining, before) &&
       TurnsOn(added, used, pool, initialBudget, minPoints, maxPoints, draws)) &&
    (|added| == 100 || left <= 0 || remaining == [] || Affordable(pool, left) == [])
  }

  /**
   * The budget loop of `SpawnEnemies`: spawn affordable groups, each on a
   * tile it takes out of the list, until the budget is spent, the tiles run
   * out, nothing is affordable, or 100 groups have been spawned.
   */
  /**
   * One turn of the tile loop: the group `GroupOn` spawns on `tile` with
   * the budget left after `added`, which extends the turns taken so far.
   */
  method SpawnTurnOn(tile: Vec3, pool: seq<EnemySpawnData>, initialBudget: int, added: seq<SpawnedGroup>,
                     ghost used: seq<Vec3>, minPoints: int, maxPoints: int, draws: ArenaDraws)
    returns (group: SpawnedGroup)
    requires minPoints <= maxPoints && draws.Valid() && |added| < 100
    requires |Affordable(pool, initialBudget - TotalWeight(added))| > 0
    requires BudgetKept(added, pool, initialBudget)
    requires TurnsOn(added, used, pool, initialBudget, minPoints, maxPoints, draws)
    ensures NearTile(tile, group.position)
    ensures TotalWeight(added + [group]) == TotalWeight(added) + group.data.weight
    ensures BudgetKept(added + [group], pool, initialBudget)
    ensures TurnsOn(added + [group], used + [tile], pool, initialBudget, minPoints, maxPoints, draws)
  {
    group := GroupOn(tile, pool, initialBudget - TotalWeight(added), |added|, minPoints, maxPoints, draws);
    TotalWeightAppend(added, group);
    BudgetKeptStep(added, pool, initialBudget, group);
    TurnsOnAppend(added, used, pool, initialBudget, minPoints, maxPoints, draws, group, tile);
  }

  method SpendTiles(tiles: SpawnableTiles, pool: seq<EnemySpawnData>, initialBudget: int,
                    minPoints: int, maxPoints: int, draws: ArenaDraws)
    returns (added: seq<SpawnedGroup>)
    requires minPoints <= maxPoints && draws.Valid()
    modifies tiles
    ensures TilesSpent(added, pool, initialBudget, tiles.positions, old(tiles.positions), minPoints, maxPoints, draws)
  {
    var currentBudget := initialBudget;
    var safetyBreak := 0;
    added := [];
    ghost var used: seq<Vec3> := [];
    assert SpawnedOn(added, used, tiles.positions, old(tiles.positions));
    while currentBudget > 0 && |tiles.positions| > 0 && safetyBreak < 100
      invariant 0 <= safetyBreak <= 100 && |added| == safetyBreak
      invariant currentBudget == initialBudget - TotalWeight(added)
      invariant BudgetKept(added, pool, initialBudget)
      invariant SpawnedOn(added, used, tiles.positions, old(tiles.positions))
      invariant TurnsOn(added, used, pool, initialBudget, minPoints, maxPoints, draws)
      decreases 100 - safetyBreak
    {
      if |Affordable(pool, currentBudget)| == 0 {
        break;
      }
      var tileIndex := RangeI(0, |tiles.positions|, draws.tile(safetyBreak));
      var tile := tiles.positions[tileIndex];
      ghost var remaining := tiles.positions;
      tiles.RemoveAt(tileIndex);
      var group := SpawnTurnOn(tile, pool, initialBudget, added, used, minPoints, maxPoints, draws);
      SpawnedOnStep(added, used, remaining, old(tiles.positions), group, tile, tiles.positions);
      added := added + [group];
      used := used + [tile];
      currentBudget := currentBudget - group.data.weight;
      safetyBreak := safetyBreak + 1;
    }
  }

  class ArenaEnemySpawner {
    /** `stageConfig`, None when it is not assigned. */
    var stageConfig: Option<StageSpawnConfig>
    var minPatrolPoints: int
    var maxPatrolPoints: int
    /** The groups under `enemyContainer`, in spawn order. */
    var spawnedGroups: seq<SpawnedGroup>

    /** The patrol point range is not empty. */
    predicate Valid()
      reads this
    {
      minPatrolPoints <= maxPatrolPoints
    }

    /**
     * `SpawnEnemies`: nothing happens without a stage configuration or
     * without tiles. Otherwise the budget starts at `StageBudget` and the
     * groups `SpendTiles` spawns are added under the container.
     */
    method SpawnEnemies(tiles: SpawnableTiles, growth: real, draws: ArenaDraws)
      requires Valid() && draws.Valid()
      modifies this, tiles
      ensures stageConfig == old(stageConfig) && minPatrolPoints == old(minPatrolPoints)
      ensures maxPatrolPoints == old(maxPatrolPoints)
      ensures Valid()
      ensures stageConfig.None? || old(tiles.positions) == [] ==> unchanged(this, tiles)
      ensures |old(spawnedGroups)| <= |spawnedGroups| && spawnedGroups[..|old(spawnedGroups)|] == old(spawnedGroups)
      ensures stageConfig.Some? && old(tiles.positions) != [] ==>
        TilesSpent(spawnedGroups[|old(spawnedGroups)|..], stageConfig.value.enemySpawnPool,
                   StageBudget(stageConfig.value.baseWeightBudget, growth), tiles.positions, old(tiles.positions),
                   minPatrolPoints, maxPatrolPoints, draws)
    {
      if stageConfig.None? || |tiles.positions| == 0 {
        return;
      }
      var config := stageConfig.value;
      var added := SpendTiles(tiles, config.enemySpawnPool, StageBudget(config.baseWeightBudget, growth),
                              minPatrolPoints, maxPatrolPoints, draws);
      ghost var before := spawnedGroups;
      spawnedGroups := spawnedGroups + added;
      assert spawnedGroups[|before|..] == added;
      assert spawnedGroups[..|before|] == before;
    }
  }

  /**
   * Each group uses up its own tile: the groups are never more than the
   * tiles there were, and the tiles left are among those there were.
   */
  lemma {:induction false} TilesUsedUp(added: seq<SpawnedGroup>, used: seq<Vec3>, remaining: seq<Vec3>, before: seq<Vec3>)
    requires SpawnedOn(added, used, remaining, before)
    ensures |added| + |remaining| == |before|
    ensures multiset(remaining) <= multiset(before)
    ensures forall k :: 0 <= k < |added| ==> exists t :: t in before && NearTile(t, added[k].position)
  {
    assert |multiset(remaining) + multiset(used)| == |multiset(before)|;
    forall k | 0 <= k < |added| ensures exists t :: t in before && NearTile(t, added[k].position) {
      assert used[k] in multiset(used);
      assert used[k] in multiset(before);
    }
  }
}
