/**
 * The enemies' `Projectile`: the player can reflect it (faster, with double
 * damage) or destroy it, and what a hit does depends on whether it has been
 * reflected and on what it hit. A hit is described by the target's tag and
 * the components found on it or its parents; the outcome says whom the
 * projectile damages and whether it explodes.
 */
module Projectile {

  /** A Unity object carries exactly one tag. */
  datatype Tag = PlayerTag | EnemyTag | ProjectileTag | Untagged

  /**
   * What the projectile hit: its tag, whether it is a slash or another
   * projectile, and whether `EnemyStats` or `PlayerStats` is on it or a parent.
   */
  datatype Target = Target(tag: Tag, hasSlash: bool, hasProjectile: bool, enemyStats: bool, playerStats: bool)

  /** The projectile passes through, or explodes (is destroyed) after damaging at most one side. */
  datatype Outcome = Ignored | Exploded(damagesEnemy: bool, damagesPlayer: bool)

  /** The decision table of `HandleHit`. */
  function HandleHit(isReflected: bool, t: Target): (o: Outcome)
    // A reflected projectile passes through the player and slashes...
    ensures isReflected && (t.tag == PlayerTag || t.hasSlash) ==> o == Ignored
    // ...damages an enemy and explodes...
    ensures isReflected && t.tag != PlayerTag && !t.hasSlash && t.enemyStats ==> o == Exploded(true, false)
    // ...and explodes on anything else that is not a projectile.
    ensures isReflected && t.tag != PlayerTag && !t.hasSlash && !t.enemyStats ==>
      (o == Exploded(false, false) <==> t.tag != ProjectileTag && !t.hasProjectile) &&
      (o == Ignored <==> t.tag == ProjectileTag || t.hasProjectile)
    // An unreflected one passes through enemies...
    ensures !isReflected && t.tag == EnemyTag ==> o == Ignored
    // ...explodes on the player, damaging it when it has stats...
    ensures !isReflected && t.tag == PlayerTag ==> o == Exploded(false, t.playerStats)
    // ...passes through projectile-tagged objects and explodes on the rest.
    ensures !isReflected && t.tag == ProjectileTag ==> o == Ignored
    ensures !isReflected && t.tag == Untagged ==> o == Exploded(false, false)
  {
    if isReflected then
      if t.tag == PlayerTag || t.hasSlash then Ignored
      else if t.enemyStats then Exploded(true, false)
      else if t.tag != ProjectileTag && !t.hasProjectile then Exploded(false, false)
      else Ignored
    else
      if t.tag == EnemyTag then Ignored
      else if t.tag == PlayerTag then Exploded(false, t.playerStats)
      else if t.tag != ProjectileTag then Exploded(false, false)
      else Ignored
  }

  /**
   * A projectile only ever hurts the side it is aimed at: a reflected one
   * never damages the player, an unreflected one never damages an enemy.
   */
  lemma DamagesOneSide(isReflected: bool, t: Target)
    ensures HandleHit(isReflected, t).Exploded? ==>
      (HandleHit(isReflected, t).damagesEnemy ==> isReflected) &&
      (HandleHit(isReflected, t).damagesPlayer ==> !isReflected)
  {
  }

  class Projectile {
    var speed: real
    var damage: int
    var canBeReflected: bool
    var canBeDestroyed: bool
    var isReflected: bool
    /** `Destroy(gameObject)` was called. */
    var destroyed: bool
    /** Explosions spawned (each needs `explosionPrefab`). */
    var explosions: nat
    var hasExplosionPrefab: bool

    constructor (s: real, d: int, reflectable: bool, destroyable: bool, prefab: bool)
      ensures speed == s && damage == d && canBeReflected == reflectable && canBeDestroyed == destroyable
      ensures hasExplosionPrefab == prefab && !isReflected && !destroyed && explosions == 0
    {
      speed := s;
      damage := d;
      canBeReflected := reflectable;
      canBeDestroyed := destroyable;
      hasExplosionPrefab := prefab;
      isReflected := false;
      destroyed := false;
      explosions := 0;
    }

    /** `SpawnExplosion` then `Destroy(gameObject)`. */
    method Explode()
      modifies this
      ensures destroyed
      ensures explosions == old(explosions) + (if hasExplosionPrefab then 1 else 0)
      ensures speed == old(speed) && damage == old(damage) && isReflected == old(isReflected)
      ensures canBeReflected == old(canBeReflected) && canBeDestroyed == old(canBeDestroyed)
      ensures hasExplosionPrefab == old(hasExplosionPrefab)
    {
      if hasExplosionPrefab {
        explosions := explosions + 1;
      }
      destroyed := true;
    }

    /**
     * `Reflect`: once only. A reflectable projectile turns back 1.5 times
     * faster with double damage; otherwise a destroyable one explodes, and
     * any other is left alone.
     */
    method Reflect()
      modifies this
      ensures old(isReflected) ==> unchanged(this)
      ensures !old(isReflected) && canBeReflected ==>
        isReflected && speed == old(speed) * 1.5 && damage == old(damage) * 2 &&
        destroyed == old(destroyed) && explosions == old(explosions)
      ensures !old(isReflected) && !canBeReflected && canBeDestroyed ==>
        destroyed && !isReflected && speed == old(speed) && damage == old(damage) &&
        explosions == old(explosions) + (if hasExplosionPrefab then 1 else 0)
      ensures !old(isReflected) && !canBeReflected && !canBeDestroyed ==> unchanged(this)
      ensures canBeReflected == old(canBeReflected) && canBeDestroyed == old(canBeDestroyed)
      ensures hasExplosionPrefab == old(hasExplosionPrefab)
    {
      if isReflected {
        return;
      }
      if canBeReflected {
        isReflected := true;
        speed := speed * 1.5;
        damage := damage * 2;
      } else if canBeDestroyed {
        Explode();
      }
    }

    /**
     * `HandleHit`, on a trigger or a collision: acts out the decision
     * table's outcome and returns it, with the damage the struck side takes.
     */
    method OnHit(t: Target) returns (o: Outcome, dealt: int)
      modifies this
      ensures o == HandleHit(old(isReflected), t)
      ensures dealt == damage
      ensures o.Exploded? ==> destroyed && explosions == old(explosions) + (if hasExplosionPrefab then 1 else 0)
      ensures o.Ignored? ==> unchanged(this)
      ensures isReflected == old(isReflected) && speed == old(speed) && damage == old(damage)
      ensures canBeReflected == old(canBeReflected) && canBeDestroyed == old(canBeDestroyed)
    {
      o := HandleHit(isReflected, t);
      dealt := damage;
      if o.Exploded? {
        Explode();
      }
    }
  }
}
