/**
 * The player's `SlashProjectile`: on touching a collider whose layer is in
 * its enemy mask, it damages the `EnemyStats` found on that collider or a
 * parent, at most once per enemy, identifying enemies by their root object.
 */
module SlashProjectile {
  import opened Wrappers

  /** A Unity layer, 0..31. */
  type Layer = bv5

  /** `1 << layer`, the layer's bit of a `LayerMask`. */
  function Bit(layer: Layer): bv32
  {
    (1 as bv32) << layer
  }

  /** `((1 << layer) & mask) != 0`. */
  predicate LayerIn(layer: Layer, mask: bv32)
  {
    Bit(layer) & mask != 0
  }

  /** The mask selecting exactly the given layers, as the inspector builds it. */
  function MaskOf(layers: seq<Layer>): bv32
  {
    if layers == [] then 0 else MaskOf(layers[..|layers| - 1]) | Bit(layers[|layers| - 1])
  }

  /** Two layers' bits overlap only when the layers are the same. */
  lemma BitsMeet(layer: Layer, other: Layer)
    ensures Bit(layer) & Bit(other) != 0 <==> layer == other
  {
  }

  /** A bit test of a union of masks is the union of the bit tests. */
  lemma AndOverOr(b: bv32, m: bv32, e: bv32)
    ensures b & (m | e) != 0 <==> b & m != 0 || b & e != 0
  {
    assert b & (m | e) == (b & m) | (b & e);
  }

  /** Adding one layer's bit to a mask selects that layer and keeps every other answer. */
  lemma LayerInWith(layer: Layer, mask: bv32, extra: Layer)
    ensures LayerIn(layer, mask | Bit(extra)) <==> LayerIn(layer, mask) || layer == extra
  {
    var b, e := Bit(layer), Bit(extra);
    AndOverOr(b, mask, e);
    BitsMeet(layer, extra);
    var inBoth, inMask, same := b & (mask | e) != 0, b & mask != 0, b & e != 0;
    assert inBoth <==> inMask || same;
    assert same <==> layer == extra;
  }

  /** The layer test agrees with membership in the layers the mask was built from. */
  lemma {:induction false} LayerInMaskOf(layer: Layer, layers: seq<Layer>)
    ensures LayerIn(layer, MaskOf(layers)) <==> layer in layers
  {
    if layers == [] {
      assert Bit(layer) & 0 == 0;
    } else {
      var init := layers[..|layers| - 1];
      LayerInMaskOf(layer, init);
      LayerInWith(layer, MaskOf(init), layers[|layers| - 1]);
      assert layers == init + [layers[|layers| - 1]];
    }
  }

  /** A trigger contact: the collider's layer, its root object and whether an `EnemyStats` is above it. */
  datatype Contact = Contact(layer: Layer, root: nat, hasEnemyStats: bool)

  /** The contact is an enemy on the mask that this slash has not damaged yet. */
  predicate Strikes(hit: seq<nat>, mask: bv32, c: Contact)
  {
    LayerIn(c.layer, mask) && c.root !in hit && c.hasEnemyStats
  }

  /** The hit list after a contact: the root is recorded exactly when it is struck. */
  function Record(hit: seq<nat>, mask: bv32, c: Contact): (h: seq<nat>)
    ensures Strikes(hit, mask, c) ==> h == hit + [c.root]
    ensures !Strikes(hit, mask, c) ==> h == hit
  {
    if Strikes(hit, mask, c) then hit + [c.root] else hit
  }

  /** The hit list after a sequence of contacts, one trigger event each. */
  function RecordAll(hit: seq<nat>, mask: bv32, cs: seq<Contact>): seq<nat>
    decreases |cs|
  {
    if cs == [] then hit else RecordAll(Record(hit, mask, cs[0]), mask, cs[1..])
  }

  /** A contact the slash would damage if nothing earlier had hit that enemy. */
  predicate Damageable(mask: bv32, c: Contact)
  {
    LayerIn(c.layer, mask) && c.hasEnemyStats
  }

  /**
   * Each enemy is damaged at most once: the hit list never holds a root twice,
   * keeps what it held, and gains exactly the roots of damageable contacts.
   */
  lemma {:induction false} RecordAllOnce(hit: seq<nat>, mask: bv32, cs: seq<Contact>)
    requires NoDuplicates(hit)
    ensures NoDuplicates(RecordAll(hit, mask, cs))
    ensures hit <= RecordAll(hit, mask, cs)
    ensures forall r :: r in RecordAll(hit, mask, cs) <==>
      r in hit || exists i :: 0 <= i < |cs| && cs[i].root == r && Damageable(mask, cs[i])
    decreases |cs|
  {
    if cs != [] {
      var next := Record(hit, mask, cs[0]);
      assert NoDuplicates(next);
      RecordAllOnce(next, mask, cs[1..]);
      forall r ensures r in RecordAll(hit, mask, cs) <==>
        r in hit || exists i :: 0 <= i < |cs| && cs[i].root == r && Damageable(mask, cs[i])
      {
        if exists i :: 0 <= i < |cs[1..]| && cs[1..][i].root == r && Damageable(mask, cs[1..][i]) {
          var i :| 0 <= i < |cs[1..]| && cs[1..][i].root == r && Damageable(mask, cs[1..][i]);
          assert cs[i + 1] == cs[1..][i];
        }
        if exists i :: 0 <= i < |cs| && cs[i].root == r && Damageable(mask, cs[i]) {
          var i :| 0 <= i < |cs| && cs[i].root == r && Damageable(mask, cs[i]);
          if i > 0 {
            assert cs[1..][i - 1] == cs[i];
          }
        }
      }
    }
  }

  class SlashProjectile {
    var damage: int
    var enemyLayers: bv32
    /** Roots of the enemies already damaged by this slash. */
    var hitEnemies: seq<nat>

    constructor (d: int, mask: bv32)
      ensures damage == d && enemyLayers == mask && hitEnemies == []
    {
      damage := d;
      enemyLayers := mask;
      hitEnemies := [];
    }

    /**
     * `OnTriggerEnter`: returns whether the enemy above the collider takes
     * `damage`, and records its root when it does.
     */
    method OnTriggerEnter(c: Contact) returns (struck: bool)
        modifies this
      ensures struck <==> Strikes(old(hitEnemies), enemyLayers, c)
      ensures hitEnemies == Record(old(hitEnemies), enemyLayers, c)
      ensures damage == old(damage) && enemyLayers == old(enemyLayers)
    {
      struck := false;
      if LayerIn(c.layer, enemyLayers) {
        if c.root !in hitEnemies {
          if c.hasEnemyStats {
            struck := true;
            hitEnemies := hitEnemies + [c.root];
          }
        }
      }
    }
  }
}
