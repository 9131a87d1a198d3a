/**
 * `PlayerStats`: the player's integer health. Damage and healing are
 * clamped into [0, maxHealth]; damage that brings health to 0 kills the
 * player, and a dead player ignores both. Healing rounds its amount the way
 * `Mathf.RoundToInt` does. Disabling movement and attack on death is
 * engine work.
 */
module PlayerStats {

  /** `Mathf.Clamp` on integers. */
  function ClampInt(value: int, lo: int, hi: int): (r: int)
    ensures lo <= hi ==> lo <= r <= hi
    ensures lo <= value <= hi ==> r == value
    ensures value < lo ==> r == lo
    ensures lo <= value && hi < value ==> r == hi
  {
    if value < lo then lo else if value > hi then hi else value
  }

  /**
   * `Mathf.RoundToInt`: the nearest integer, and the even one of the two
   * when `x` lies exactly halfway.
   */
  function RoundToInt(x: real): (n: int)
    ensures x - 0.5 <= n as real <= x + 0.5
    ensures n as real - x == 0.5 || x - n as real == 0.5 ==> n % 2 == 0
  {
    var f := x.Floor;
    var frac := x - f as real;
    if frac < 0.5 then f
    else if frac > 0.5 then f + 1
    else if f % 2 == 0 then f
    else f + 1
  }

  class PlayerStats {
    var maxHealth: int
    var currentHealth: int
    var isDead: bool
    /** How many times `Die` has run, raising `OnPlayerDeath`. */
    var deathEvents: nat

    /** The death event was raised exactly when the player is dead. */
    predicate Valid()
      reads this
    {
      deathEvents == (if isDead then 1 else 0)
    }

    /** The component as created and woken: `Awake` fills health. */
    constructor (health: int)
      ensures Valid() && !isDead && maxHealth == health && currentHealth == health
    {
      maxHealth := health;
      currentHealth := health;
      isDead := false;
      deathEvents := 0;
    }

    /** `Die`: called by `TakeDamage` only on a living player. */
    method Die()
      requires Valid() && !isDead
      modifies this
      ensures Valid() && isDead
      ensures currentHealth == old(currentHealth) && maxHealth == old(maxHealth)
    {
      isDead := true;
      deathEvents := deathEvents + 1;
    }

    /**
     * `TakeDamage`: ignored once dead; otherwise health drops by the
     * damage, clamped into [0, maxHealth], and the player dies at 0.
     */
    method TakeDamage(damage: int)
      requires Valid()
      modifies this
      ensures Valid()
      ensures old(isDead) ==> unchanged(this)
      ensures !old(isDead) ==> currentHealth == ClampInt(old(currentHealth) - damage, 0, maxHealth)
      ensures !old(isDead) ==> (isDead <==> currentHealth <= 0)
      ensures maxHealth == old(maxHealth)
    {
      if isDead {
        return;
      }
      currentHealth := currentHealth - damage;
      currentHealth := ClampInt(currentHealth, 0, maxHealth);
      if currentHealth <= 0 {
        Die();
      }
    }

    /**
     * `Heal`: ignored once dead; otherwise health rises by the rounded
     * amount, clamped into [0, maxHealth]. Healing never kills, even when
     * a negative amount brings health to 0.
     */
    method Heal(amount: real)
      requires Valid()
      modifies this
      ensures Valid()
      ensures old(isDead) ==> unchanged(this)
      ensures !old(isDead) ==> currentHealth == ClampInt(old(currentHealth) + RoundToInt(amount), 0, maxHealth)
      ensures isDead == old(isDead) && deathEvents == old(deathEvents) && maxHealth == old(maxHealth)
    {
      if isDead {
        return;
      }
      var healAmount := RoundToInt(amount);
      currentHealth := currentHealth + healAmount;
      currentHealth := ClampInt(currentHealth, 0, maxHealth);
    }
  }

  /** Health after healing a living player, as `Heal` computes it. */
  function Healed(health: int, amount: real, maxHealth: int): int
  {
    ClampInt(health + RoundToInt(amount), 0, maxHealth)
  }

  /**
   * Healing a living player with health in [0, maxHealth] by a
   * non-negative amount never lowers health nor passes maxHealth, and an
   * amount of at least the missing health fills it.
   */
  lemma HealRaises(health: int, amount: real, maxHealth: int)
    requires 0 <= health <= maxHealth && 0.0 <= amount
    ensures health <= Healed(health, amount, maxHealth) <= maxHealth
    ensures amount >= (maxHealth - health) as real + 0.5 ==> Healed(health, amount, maxHealth) == maxHealth
  {
  }
}
