/**
 * The weight budget both `EnemySpawner`s spend: each entry of the stage's
 * spawn pool has a cost (at least 1), a group is picked among the entries
 * the remaining budget can afford, and its cost is taken off the budget.
 */
module SpawnBudget {
  import opened Geometry

  /** An `EnemySpawnData` entry: its prefab, by identity, and its cost. */
  datatype EnemySpawnData = EnemySpawnData(prefab: nat, weight: int)

  /** A group spawned from an entry, where it stands, and the patrol points its AIs were given. */
  datatype SpawnedGroup = SpawnedGroup(data: EnemySpawnData, position: Vec3, patrolPoints: seq<Vec3>)

  /** A `StageSpawnConfig` asset: the stage's base budget and the entries it may spawn. */
  datatype StageSpawnConfig = StageSpawnConfig(baseWeightBudget: int, enemySpawnPool: seq<EnemySpawnData>)

  /** Every cost is at least 1, as the inspector's minimum on `weight` demands. */
  predicate ValidPool(pool: seq<EnemySpawnData>)
  {
    forall i :: 0 <= i < |pool| ==> pool[i].weight >= 1
  }

  /** `Where(e => e.weight <= budget)`: the affordable entries, in pool order. */
  function Affordable(pool: seq<EnemySpawnData>, budget: int): (r: seq<EnemySpawnData>)
    ensures |r| <= |pool|
    ensures forall e :: e in r <==> e in pool && e.weight <= budget
  {
    if pool == [] then []
    else
      assert forall e :: e in pool <==> e == pool[0] || e in pool[1..];
      (if pool[0].weight <= budget then [pool[0]] else []) + Affordable(pool[1..], budget)
  }

  /** The total cost of the spawned groups. */
  function TotalWeight(groups: seq<SpawnedGroup>): int
  {
    if groups == [] then 0 else TotalWeight(groups[..|groups| - 1]) + groups[|groups| - 1].data.weight
  }

  lemma TotalWeightAppend(groups: seq<SpawnedGroup>, g: SpawnedGroup)
    ensures TotalWeight(groups + [g]) == TotalWeight(groups) + g.data.weight
  {
    assert (groups + [g])[..|groups|] == groups;
  }

  /** Every group costs at least 1. */
  predicate AllPositive(groups: seq<SpawnedGroup>)
  {
    forall k :: 0 <= k < |groups| ==> groups[k].data.weight >= 1
  }

  /** With every cost at least 1, the number of groups is at most their total cost. */
  lemma {:induction false} CountWithinWeight(groups: seq<SpawnedGroup>)
    requires AllPositive(groups)
    ensures |groups| <= TotalWeight(groups)
  {
    if groups != [] {
      var init := groups[..|groups| - 1];
      assert AllPositive(init) by {
        forall k | 0 <= k < |init| ensures init[k].data.weight >= 1 {
          assert init[k] == groups[k];
        }
      }
      CountWithinWeight(init);
      assert groups[|groups| - 1].data.weight >= 1;
    }
  }
}
