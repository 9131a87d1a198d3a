/**
 * `EnemyStats`: an enemy's health and mana. Damage is clamped into
 * [0, maxHealth]; reaching 0 health kills the enemy, and death is final:
 * a dead enemy ignores damage and its death runs only once. Disabling the
 * AI, the agent, the body and the collider on death is engine work.
 */
module EnemyStats {

  /** `Mathf.Clamp(value, lo, hi)`. */
  function Clamp(value: real, lo: real, hi: real): (r: real)
    ensures lo <= hi ==> lo <= r <= hi
    ensures lo <= value <= hi ==> r == value
    ensures value < lo ==> r == lo
    ensures lo <= value && hi < value ==> r == hi
  {
    if value < lo then lo else if value > hi then hi else value
  }

  class EnemyStats {
    var maxHealth: real
    var currentHealth: real
    var maxMana: real
    var currentMana: real
    var isDead: bool
    /** How many times `Die` has run past its guard, raising `OnDeath`. */
    var deathEvents: nat

    /** The death event was raised exactly when the enemy is dead. */
    predicate Valid()
      reads this
    {
      deathEvents == (if isDead then 1 else 0)
    }

    /** The component as created and woken: `Awake` fills health and mana. */
    constructor (health: real, mana: real)
      ensures Valid() && !isDead
      ensures maxHealth == health && currentHealth == health
      ensures maxMana == mana && currentMana == mana
    {
      maxHealth := health;
      currentHealth := health;
      maxMana := mana;
      currentMana := mana;
      isDead := false;
      deathEvents := 0;
    }

    /** `Die`: runs once; a second call changes nothing. */
    method Die()
      requires Valid()
      modifies this
      ensures Valid() && isDead
      ensures old(isDead) ==> unchanged(this)
      ensures currentHealth == old(currentHealth) && currentMana == old(currentMana)
      ensures maxHealth == old(maxHealth) && maxMana == old(maxMana)
    {
      if isDead {
        return;
      }
      isDead := true;
      deathEvents := deathEvents + 1;
    }

    /** `Update`: a living enemy whose health is at most 0 dies. */
    method Update()
      requires Valid()
      modifies this
      ensures Valid()
      ensures isDead == (old(isDead) || old(currentHealth) <= 0.0)
      ensures currentHealth == old(currentHealth) && currentMana == old(currentMana)
      ensures maxHealth == old(maxHealth) && maxMana == old(maxMana)
    {
      if !isDead && currentHealth <= 0.0 {
        Die();
      }
    }

    /**
     * `TakeDamage`: ignored once dead; otherwise health drops by the amount,
     * clamped into [0, maxHealth], and the enemy dies when it reaches 0.
     */
    method TakeDamage(damageAmount: real)
      requires Valid()
      modifies this
      ensures Valid()
      ensures old(isDead) ==> unchanged(this)
      ensures !old(isDead) ==> currentHealth == Clamp(old(currentHealth) - damageAmount, 0.0, maxHealth)
      ensures !old(isDead) ==> (isDead <==> currentHealth <= 0.0)
      ensures currentMana == old(currentMana) && maxHealth == old(maxHealth) && maxMana == old(maxMana)
    {
      if isDead {
        return;
      }
      currentHealth := currentHealth - damageAmount;
      currentHealth := Clamp(currentHealth, 0.0, maxHealth);
      if currentHealth <= 0.0 {
        Die();
      }
    }

    /** `UseMana`: succeeds exactly when there is enough mana, and then spends exactly the cost. */
    method UseMana(manaCost: real) returns (ok: bool)
      modifies this
      ensures ok <==> old(currentMana) >= manaCost
      ensures currentMana == if ok then old(currentMana) - manaCost else old(currentMana)
      ensures currentHealth == old(currentHealth) && isDead == old(isDead) && deathEvents == old(deathEvents)
      ensures maxHealth == old(maxHealth) && maxMana == old(maxMana)
    {
      if currentMana >= manaCost {
        currentMana := currentMana - manaCost;
        return true;
      }
      return false;
    }
  }

  /** Health after a hit on a living enemy, as `TakeDamage` computes it. */
  function Damaged(health: real, amount: real, maxHealth: real): real
  {
    Clamp(health - amount, 0.0, maxHealth)
  }

  /**
   * Damage never heals: a non-negative hit on health within [0, maxHealth]
   * leaves it no higher and still within bounds, and a hit of at least the
   * remaining health is fatal.
   */
  lemma DamageLowers(health: real, amount: real, maxHealth: real)
    requires 0.0 <= health <= maxHealth && 0.0 <= amount
    ensures 0.0 <= Damaged(health, amount, maxHealth) <= health
    ensures Damaged(health, amount, maxHealth) == 0.0 <==> amount >= health
  {
  }

  /** Two successive hits on a living enemy add up, as long as the first is not fatal. */
  lemma {:induction false} DamageAdds(health: real, a: real, b: real, maxHealth: real)
    requires 0.0 <= health <= maxHealth && 0.0 <= a && 0.0 <= b && a < health
    ensures Damaged(Damaged(health, a, maxHealth), b, maxHealth) == Damaged(health, a + b, maxHealth)
  {
    assert Damaged(health, a, maxHealth) == health - a;
  }
}
