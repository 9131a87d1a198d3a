/**
 * The live `EnemyAttack` component: a melee or ranged attack gated by a
 * cooldown. The AI asks it whether it `CanAttack` and calls `PerformAttack`,
 * which fires the animation trigger, restarts the cooldown and, for a ranged
 * attack, spawns a projectile aimed at the target.
 */
module Combat {
  import opened Geometry
  import opened Cooldown

  datatype AttackStyle = Melee | Ranged

  /**
   * `a` is as one `PerformAttack(target)` leaves it, from its state in the
   * old heap: when it could attack, the trigger fires once, the cooldown
   * restarts and a ranged attack with a prefab and a spawn point adds a
   * projectile; otherwise nothing changes. The settings stay.
   */
  twostate predicate Performed(a: EnemyAttack, target: Vec3)
    reads a
  {
    a.attackStyle == old(a.attackStyle) && a.attackRange == old(a.attackRange) &&
    a.attackCooldown == old(a.attackCooldown) && a.attackDuration == old(a.attackDuration) &&
    a.hasProjectilePrefab == old(a.hasProjectilePrefab) &&
    a.hasProjectileSpawnPoint == old(a.hasProjectileSpawnPoint) &&
    if old(a.CanAttack()) then
      a.timeSinceLastAttack == 0.0 && a.attackTriggers == old(a.attackTriggers) + 1 &&
      a.projectiles == old(a.projectiles) +
        (if a.attackStyle == Ranged && a.hasProjectilePrefab && a.hasProjectileSpawnPoint then [target] else [])
    else
      a.timeSinceLastAttack == old(a.timeSinceLastAttack) && a.attackTriggers == old(a.attackTriggers) &&
      a.projectiles == old(a.projectiles)
  }

  class EnemyAttack {
    var attackStyle: AttackStyle
    var attackRange: real
    var attackCooldown: real
    /** How long the AI stays in its Attacking state. */
    var attackDuration: real
    /** Whether `projectilePrefab` and `projectileSpawnPoint` are set. */
    var hasProjectilePrefab: bool
    var hasProjectileSpawnPoint: bool
    var timeSinceLastAttack: real
    /** How many times the animator's attack trigger has been set. */
    var attackTriggers: nat
    /** The targets of the projectiles spawned so far, in order. */
    var projectiles: seq<Vec3>

    constructor (style: AttackStyle, range: real, cooldown: real, duration: real,
                 prefab: bool, spawnPoint: bool)
      ensures attackStyle == style && attackRange == range
      ensures attackCooldown == cooldown && attackDuration == duration
      ensures hasProjectilePrefab == prefab && hasProjectileSpawnPoint == spawnPoint
      ensures timeSinceLastAttack == 0.0 && attackTriggers == 0 && projectiles == []
    {
      attackStyle := style;
      attackRange := range;
      attackCooldown := cooldown;
      attackDuration := duration;
      hasProjectilePrefab := prefab;
      hasProjectileSpawnPoint := spawnPoint;
      timeSinceLastAttack := 0.0;
      attackTriggers := 0;
      projectiles := [];
    }

    predicate CanAttack()
      reads this
    {
      Ready(timeSinceLastAttack, attackCooldown)
    }

    /** `Start`: the timer begins full, so the first attack is allowed at once. */
    method Start()
      modifies this
      ensures timeSinceLastAttack == attackCooldown && CanAttack()
      ensures attackCooldown == old(attackCooldown) && attackTriggers == old(attackTriggers)
      ensures projectiles == old(projectiles)
      ensures attackRange == old(attackRange) && attackDuration == old(attackDuration)
      ensures attackStyle == old(attackStyle)
      ensures hasProjectilePrefab == old(hasProjectilePrefab)
      ensures hasProjectileSpawnPoint == old(hasProjectileSpawnPoint)
    {
      timeSinceLastAttack := attackCooldown;
    }

    /** `Update`: one frame of the cooldown timer. */
    method Update(dt: real)
      modifies this
      ensures timeSinceLastAttack == Tick(old(timeSinceLastAttack), attackCooldown, dt)
      ensures old(CanAttack()) ==> timeSinceLastAttack == old(timeSinceLastAttack)
      ensures attackCooldown == old(attackCooldown) && attackRange == old(attackRange)
      ensures attackDuration == old(attackDuration) && attackStyle == old(attackStyle)
      ensures attackTriggers == old(attackTriggers) && projectiles == old(projectiles)
      ensures hasProjectilePrefab == old(hasProjectilePrefab)
      ensures hasProjectileSpawnPoint == old(hasProjectileSpawnPoint)
    {
      if timeSinceLastAttack < attackCooldown {
        timeSinceLastAttack := timeSinceLastAttack + dt;
      }
    }

    /**
     * `PerformAttack(target)`: nothing while cooling down. Otherwise the
     * trigger fires and the cooldown restarts; a ranged attack then spawns
     * a projectile only when both the prefab and the spawn point are set,
     * but the cooldown is spent either way.
     */
    method PerformAttack(target: Vec3)
      modifies this
      ensures !old(CanAttack()) ==> unchanged(this)
      ensures old(CanAttack()) ==>
        timeSinceLastAttack == 0.0 && attackTriggers == old(attackTriggers) + 1 &&
        projectiles == old(projectiles) +
          (if attackStyle == Ranged && hasProjectilePrefab && hasProjectileSpawnPoint then [target] else [])
      ensures old(CanAttack()) && attackCooldown > 0.0 ==> !CanAttack()
      ensures attackCooldown == old(attackCooldown) && attackRange == old(attackRange)
      ensures attackDuration == old(attackDuration) && attackStyle == old(attackStyle)
      ensures hasProjectilePrefab == old(hasProjectilePrefab)
      ensures hasProjectileSpawnPoint == old(hasProjectileSpawnPoint)
      ensures Performed(this, target)
    {
      if !CanAttack() {
        return;
      }
      attackTriggers := attackTriggers + 1;
      timeSinceLastAttack := 0.0;
      if attackStyle == Ranged {
        if !hasProjectilePrefab || !hasProjectileSpawnPoint {
          return;
        }
        projectiles := projectiles + [target];
      }
    }
  }
}
