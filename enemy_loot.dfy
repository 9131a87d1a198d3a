/**
 * `EnemyLootDropper`: when an enemy that was seen to die is destroyed (and
 * the application is not quitting), it rolls against the global drop
 * chance and, on success, drops an item picked from the loot table with
 * probability proportional to its weight. The pick walks the table with a
 * running weight sum and takes the first item whose sum passes the drawn
 * value. Items are identified by their prefab; the two random draws are
 * parameters.
 */
module EnemyLoot {
  import opened UnityRandom
  import opened Wrappers

  /**
   * A loot table entry: its prefab, by identity (None when the inspector
   * field is left unassigned), and its relative weight.
   */
  datatype LootItem = LootItem(name: string, itemPrefab: Option<nat>, weight: int)

  /** Every weight is in the inspector's range [1, 100]. */
  predicate ValidTable(table: seq<LootItem>)
  {
    forall i :: 0 <= i < |table| ==> 1 <= table[i].weight <= 100
  }

  /** The sum of the first `n` weights. */
  function Prefix(table: seq<LootItem>, n: nat): int
    requires n <= |table|
  {
    if n == 0 then 0 else Prefix(table, n - 1) + table[n - 1].weight
  }


  /** With positive weights the running sums grow strictly. */
  lemma {:induction false} PrefixGrows(table: seq<LootItem>, m: nat, n: nat)
    requires ValidTable(table) && m <= n <= |table|
    ensures Prefix(table, m) + (n - m) <= Prefix(table, n)
  {
    if m < n {
      PrefixGrows(table, m, n - 1);
    }
  }

  /** The sum of all weights: at least one per item. */
  function Total(table: seq<LootItem>): (t: int)
    ensures ValidTable(table) ==> |table| <= t
  {
    if ValidTable(table) then
      PrefixGrows(table, 0, |table|);
      Prefix(table, |table|)
    else
      Prefix(table, |table|)
  }

  /** The first index at or after `i` whose running sum passes `r`, if any. */
  function FirstFrom(table: seq<LootItem>, r: int, i: nat): (k: Option<nat>)
    requires i <= |table|
    ensures k.Some? ==> i <= k.value < |table| && r < Prefix(table, k.value + 1)
    ensures k.Some? ==> forall j :: i < j <= k.value ==> Prefix(table, j) <= r
    ensures k.None? ==> forall j :: i < j <= |table| ==> Prefix(table, j) <= r
    decreases |table| - i
  {
    if i == |table| then None
    else if r < Prefix(table, i + 1) then Some(i)
    else FirstFrom(table, r, i + 1)
  }

  /** The index the running-sum walk selects for the drawn value `r`. */
  function Selected(table: seq<LootItem>, r: int): Option<nat>
  {
    FirstFrom(table, r, 0)
  }

  /**
   * The walk selects item `i` exactly when `r` falls in its slice of the
   * running sums, [Prefix(i), Prefix(i + 1)).
   */
  lemma SelectedIff(table: seq<LootItem>, r: int, i: nat)
    requires ValidTable(table) && 0 <= r && i < |table|
    ensures Selected(table, r) == Some(i) <==> Prefix(table, i) <= r < Prefix(table, i + 1)
  {
    var k := Selected(table, r);
    if k == Some(i) {
      if i > 0 {
        assert Prefix(table, i) <= r;
      }
    } else if Prefix(table, i) <= r < Prefix(table, i + 1) {
      if k.Some? {
        if k.value < i {
          PrefixGrows(table, k.value + 1, i);
        } else {
          assert false;
        }
      }
    }
  }

  /** Every value in [0, Total) selects some item, so the walk's fallback is never reached. */
  lemma FallbackUnreachable(table: seq<LootItem>, r: int)
    requires ValidTable(table) && 0 <= r < Total(table)
    ensures Selected(table, r).Some?
  {
    if Selected(table, r).None? {
      assert false;
    }
  }

  /** The integers in [lo, hi). */
  function Span(lo: int, hi: int): (s: set<int>)
    ensures forall r :: r in s <==> lo <= r < hi
    ensures lo <= hi ==> |s| == hi - lo
    decreases hi - lo
  {
    if hi <= lo then {} else Span(lo, hi - 1) + {hi - 1}
  }

  /**
   * Item `i` is picked for exactly `weight_i` of the `Total` values the
   * draw can take: the pick is proportional to the weights.
   */
  lemma PickedByWeight(table: seq<LootItem>, i: nat)
    requires ValidTable(table) && i < |table|
    ensures |set r | 0 <= r < Total(table) && Selected(table, r) == Some(i)| == table[i].weight
  {
    var picks := set r | 0 <= r < Total(table) && Selected(table, r) == Some(i);
    PrefixGrows(table, 0, i);
    PrefixGrows(table, i + 1, |table|);
    forall r ensures r in picks <==> r in Span(Prefix(table, i), Prefix(table, i + 1)) {
      if 0 <= r {
        SelectedIff(table, r, i);
      }
    }
    assert picks == Span(Prefix(table, i), Prefix(table, i + 1));
  }

  /** The index the walk picks for the draw `u` on a non-empty table. */
  function Pick(table: seq<LootItem>, u: real): (k: nat)
    requires ValidTable(table) && table != [] && IsIntDraw(u)
    ensures k < |table| && Selected(table, RangeI(0, Total(table), u)) == Some(k)
  {
    var r := RangeI(0, Total(table), u);
    FallbackUnreachable(table, r);
    Selected(table, r).value
  }

  /** What instantiating an entry drops: its prefab, or nothing when none is assigned. */
  function DropOf(item: LootItem): (d: seq<nat>)
    ensures |d| <= 1
    ensures d != [] <==> item.itemPrefab.Some?
  {
    if item.itemPrefab.Some? then [item.itemPrefab.value] else []
  }

  /**
   * The drops of one `TryDropLoot` with roll draw `uRoll` and pick draw
   * `uPick`: nothing when the roll in [0, 100] is above the chance or the
   * table is empty, otherwise the picked entry's prefab, if it has one.
   */
  function Drops(table: seq<LootItem>, chance: real, uRoll: real, uPick: real): (d: seq<nat>)
    requires ValidTable(table) && IsValue(uRoll) && IsIntDraw(uPick)
    ensures |d| <= 1
    ensures d != [] <==>
      RangeF(0.0, 100.0, uRoll) <= chance && table != [] && table[Pick(table, uPick)].itemPrefab.Some?
    ensures forall p :: p in d ==> exists i :: 0 <= i < |table| && table[i].itemPrefab == Some(p)
  {
    if RangeF(0.0, 100.0, uRoll) > chance || table == [] then []
    else
      var k := Pick(table, uPick);
      assert table[k].itemPrefab.Some? ==> table[k].itemPrefab == Some(table[k].itemPrefab.value);
      DropOf(table[k])
  }

  /**
   * `GetRandomItemFromTable`: None for an empty table; otherwise the total
   * weight is summed, `r` is drawn in [0, total), and the first item whose
   * running sum passes `r` is returned. The source falls back to the first
   * item after the walk; `FallbackUnreachable` shows the walk never gets there.
   */
  method GetRandomItemFromTable(table: seq<LootItem>, u: real) returns (item: Option<nat>)
    requires ValidTable(table) && IsIntDraw(u)
    ensures table == [] ==> item.None?
    ensures table != [] ==>
      var r := RangeI(0, Total(table), u);
      Selected(table, r).Some? && item == table[Selected(table, r).value].itemPrefab
  {
    if |table| == 0 {
      return None;
    }
    var totalWeight := 0;
    var n := 0;
    while n < |table|
      invariant 0 <= n <= |table| && totalWeight == Prefix(table, n)
    {
      totalWeight := totalWeight + table[n].weight;
      n := n + 1;
    }
    PrefixGrows(table, 0, |table|);
    var randomValue := RangeI(0, totalWeight, u);
    FallbackUnreachable(table, randomValue);
    var currentWeightSum := 0;
    var i := 0;
    while true
      invariant 0 <= i < |table| && currentWeightSum == Prefix(table, i)
      invariant FirstFrom(table, randomValue, i) == Selected(table, randomValue)
      decreases |table| - i
    {
      currentWeightSum := currentWeightSum + table[i].weight;
      if randomValue < currentWeightSum {
        return table[i].itemPrefab;
      }
      i := i + 1;
    }
  }

  class EnemyLootDropper {
    /** The drop chance, in percent. */
    var globalDropChance: real
    var lootTable: seq<LootItem>
    /** `enemyStats != null`: the enemy has the stats component whose death event is watched. */
    var hasStats: bool
    /** Whether `MarkAsDead` is subscribed to the death event. */
    var subscribed: bool
    var hasDied: bool
    var isQuitting: bool
    /** The prefabs instantiated as drops, in order. */
    var dropped: seq<nat>

    ghost predicate Valid()
      reads this
    {
      ValidTable(lootTable) && (subscribed ==> hasStats)
    }

    constructor (chance: real, table: seq<LootItem>, stats: bool)
      requires ValidTable(table)
      ensures Valid()
      ensures globalDropChance == chance && lootTable == table && hasStats == stats
      ensures !subscribed && !hasDied && !isQuitting && dropped == []
    {
      globalDropChance := chance;
      lootTable := table;
      hasStats := stats;
      subscribed := false;
      hasDied := false;
      isQuitting := false;
      dropped := [];
    }

    /** `Start`: subscribes to the death event when there are stats to watch. */
    method Start()
      requires Valid()
      modifies this
      ensures Valid()
      ensures subscribed == hasStats
      ensures globalDropChance == old(globalDropChance) && lootTable == old(lootTable) && hasStats == old(hasStats)
      ensures hasDied == old(hasDied) && isQuitting == old(isQuitting) && dropped == old(dropped)
    {
      if hasStats {
        subscribed := true;
      }
    }

    /** The enemy's death event: `MarkAsDead` runs only while subscribed. */
    method OnDeath()
      requires Valid()
      modifies this
      ensures Valid()
      ensures hasDied == (old(hasDied) || subscribed)
      ensures subscribed == old(subscribed) && globalDropChance == old(globalDropChance)
      ensures lootTable == old(lootTable) && hasStats == old(hasStats)
      ensures isQuitting == old(isQuitting) && dropped == old(dropped)
    {
      if subscribed {
        hasDied := true;
      }
    }

    /** `OnApplicationQuit`. */
    method OnApplicationQuit()
      modifies this
      ensures isQuitting
      ensures hasDied == old(hasDied) && subscribed == old(subscribed) && dropped == old(dropped)
      ensures globalDropChance == old(globalDropChance) && lootTable == old(lootTable) && hasStats == old(hasStats)
    {
      isQuitting := true;
    }

    /**
     * `TryDropLoot`: no drop when the roll in [0, 100] is above the drop
     * chance, or the table is empty; otherwise the picked entry's prefab is
     * instantiated, unless the entry has none.
     */
    method TryDropLoot(uRoll: real, uPick: real)
      requires Valid() && IsValue(uRoll) && IsIntDraw(uPick)
      modifies this
      ensures Valid()
      ensures RangeF(0.0, 100.0, uRoll) > globalDropChance || lootTable == [] ==> dropped == old(dropped)
      ensures RangeF(0.0, 100.0, uRoll) <= globalDropChance && lootTable != [] ==>
        dropped == old(dropped) + DropOf(lootTable[Pick(lootTable, uPick)])
      ensures dropped == old(dropped) + Drops(lootTable, globalDropChance, uRoll, uPick)
      ensures globalDropChance == old(globalDropChance) && lootTable == old(lootTable) && hasStats == old(hasStats)
      ensures subscribed == old(subscribed) && hasDied == old(hasDied) && isQuitting == old(isQuitting)
    {
      var roll := RangeF(0.0, 100.0, uRoll);
      if roll > globalDropChance {
        return;
      }
      var itemToSpawn := GetRandomItemFromTable(lootTable, uPick);
      if itemToSpawn.Some? {
        dropped := dropped + [itemToSpawn.value];
      }
    }

    /**
     * `OnDestroy`: unsubscribes, and attempts a drop only if the death was
     * observed and the application is not quitting.
     */
    method OnDestroy(uRoll: real, uPick: real)
      requires Valid() && IsValue(uRoll) && IsIntDraw(uPick)
      modifies this
      ensures Valid() && !subscribed
      ensures !old(hasDied) || old(isQuitting) ==> dropped == old(dropped)
      ensures old(hasDied) && !old(isQuitting) ==>
        dropped == old(dropped) + Drops(lootTable, globalDropChance, uRoll, uPick)
      ensures |old(dropped)| <= |dropped| <= |old(dropped)| + 1
      ensures globalDropChance == old(globalDropChance) && lootTable == old(lootTable) && hasStats == old(hasStats)
      ensures hasDied == old(hasDied) && isQuitting == old(isQuitting)
    {
      subscribed := false;
      if hasDied && !isQuitting {
        TryDropLoot(uRoll, uPick);
      }
    }
  }
}
