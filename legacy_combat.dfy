/**
 * The earlier `EnemyAttack` component used by the three-state AI: a
 * cooldown-gated attack with no style and no projectile.
 */
module LegacyCombat {
  import opened Cooldown

  class EnemyAttack {
    var attackRange: real
    var attackCooldown: real
    var timeSinceLastAttack: real
    /** How many times the animator's attack trigger has been set. */
    var attackTriggers: nat

    constructor (range: real, cooldown: real)
      ensures attackRange == range && attackCooldown == cooldown
      ensures timeSinceLastAttack == 0.0 && attackTriggers == 0
    {
      attackRange := range;
      attackCooldown := cooldown;
      timeSinceLastAttack := 0.0;
      attackTriggers := 0;
    }

    predicate CanAttack()
      reads this
    {
      Ready(timeSinceLastAttack, attackCooldown)
    }

    /** `Start`: the timer begins full, so the enemy may attack at once. */
    method Start()
      modifies this
      ensures timeSinceLastAttack == attackCooldown && CanAttack()
      ensures attackCooldown == old(attackCooldown) && attackRange == old(attackRange)
      ensures attackTriggers == old(attackTriggers)
    {
      timeSinceLastAttack := attackCooldown;
    }

    /** `Update`: one frame of the cooldown timer. */
    method Update(dt: real)
      modifies this
      ensures timeSinceLastAttack == Tick(old(timeSinceLastAttack), attackCooldown, dt)
      ensures old(CanAttack()) ==> timeSinceLastAttack == old(timeSinceLastAttack)
      ensures attackCooldown == old(attackCooldown) && attackRange == old(attackRange)
      ensures attackTriggers == old(attackTriggers)
    {
      if timeSinceLastAttack < attackCooldown {
        timeSinceLastAttack := timeSinceLastAttack + dt;
      }
    }

    /** `PerformAttack`: nothing while cooling down; otherwise trigger and restart the cooldown. */
    method PerformAttack()
      modifies this
      ensures !old(CanAttack()) ==> unchanged(this)
      ensures old(CanAttack()) ==>
        timeSinceLastAttack == 0.0 && attackTriggers == old(attackTriggers) + 1
      ensures old(CanAttack()) && attackCooldown > 0.0 ==> !CanAttack()
      ensures attackCooldown == old(attackCooldown) && attackRange == old(attackRange)
    {
      if !CanAttack() {
        return;
      }
      attackTriggers := attackTriggers + 1;
      timeSinceLastAttack := 0.0;
    }
  }
}
