/**
 * `PlayerAttack`: the attack input starts an attack unless one is running;
 * animation events open and close the hitbox; while it is open, every frame
 * collects the enemy colliders in the overlap sphere, each at most once per
 * attack. Colliders are identified by number; the overlap query's result is
 * a parameter.
 */
module PlayerAttack {
  import opened Wrappers

  /** The hit list after one hit check: colliders not yet in it are appended in query order. */
  function AddNew(hits: seq<nat>, overlap: seq<nat>): seq<nat>
    decreases |overlap|
  {
    if overlap == [] then hits
    else
      var before := AddNew(hits, overlap[..|overlap| - 1]);
      var c := overlap[|overlap| - 1];
      if c in before then before else before + [c]
  }

  /**
   * A hit check keeps what was hit, stays free of duplicates, and ends up
   * holding exactly the colliders hit before or found by the query.
   */
  lemma {:induction false} AddNewUnion(hits: seq<nat>, overlap: seq<nat>)
    requires NoDuplicates(hits)
    ensures NoDuplicates(AddNew(hits, overlap))
    ensures hits <= AddNew(hits, overlap)
    ensures forall c :: c in AddNew(hits, overlap) <==> c in hits || c in overlap
    decreases |overlap|
  {
    if overlap != [] {
      var init := overlap[..|overlap| - 1];
      AddNewUnion(hits, init);
      assert overlap == init + [overlap[|overlap| - 1]];
    }
  }

  /** Colliders already in the hit list add nothing. */
  lemma {:induction false} AddNewKnown(hits: seq<nat>, more: seq<nat>)
    requires forall c :: c in more ==> c in hits
    ensures AddNew(hits, more) == hits
    decreases |more|
  {
    if more != [] {
      AddNewKnown(hits, more[..|more| - 1]);
      assert more[|more| - 1] in more;
    }
  }

  /** Running the same hit check again (the enemy is still in range next frame) adds nothing. */
  lemma HitCheckIdempotent(hits: seq<nat>, overlap: seq<nat>)
    requires NoDuplicates(hits)
    ensures AddNew(AddNew(hits, overlap), overlap) == AddNew(hits, overlap)
  {
    AddNewUnion(hits, overlap);
    AddNewKnown(AddNew(hits, overlap), overlap);
  }

  class PlayerAttack {
    var isAttacking: bool
    var isHitboxActive: bool
    /** `enemiesHitThisAttack`. */
    var hits: seq<nat>
    /** How many times the `Attack1` animator trigger was set. */
    var attackTriggers: nat

    ghost predicate Valid()
      reads this
    {
      NoDuplicates(hits)
    }

    /** `Awake`. */
    constructor ()
      ensures Valid()
      ensures !isAttacking && !isHitboxActive && hits == [] && attackTriggers == 0
    {
      isAttacking := false;
      isHitboxActive := false;
      hits := [];
      attackTriggers := 0;
    }

    /** `Attack`: ignored during an attack; otherwise locks, clears the hit list and plays the animation. */
    method Attack()
      requires Valid()
      modifies this
      ensures Valid()
      ensures old(isAttacking) ==> unchanged(this)
      ensures !old(isAttacking) ==> isAttacking && hits == [] && attackTriggers == old(attackTriggers) + 1
      ensures isHitboxActive == old(isHitboxActive)
    {
      if isAttacking {
        return;
      }
      isAttacking := true;
      hits := [];
      attackTriggers := attackTriggers + 1;
    }

    /** `PerformHitCheck`, given the colliders `Physics.OverlapSphere` returns. */
    method PerformHitCheck(overlap: seq<nat>)
      requires Valid()
      modifies this
      ensures Valid()
      ensures hits == AddNew(old(hits), overlap)
      ensures isAttacking == old(isAttacking) && isHitboxActive == old(isHitboxActive)
      ensures attackTriggers == old(attackTriggers)
    {
      AddNewUnion(hits, overlap);
      var i := 0;
      while i < |overlap|
        invariant 0 <= i <= |overlap|
        invariant hits == AddNew(old(hits), overlap[..i])
        invariant isAttacking == old(isAttacking) && isHitboxActive == old(isHitboxActive)
        invariant attackTriggers == old(attackTriggers)
      {
        assert overlap[..i + 1][..i] == overlap[..i];
        if overlap[i] !in hits {
          hits := hits + [overlap[i]];
        }
        i := i + 1;
      }
      assert overlap[..i] == overlap;
    }

    /** `Update`: a hit check every frame the hitbox is open. */
    method Update(overlap: seq<nat>)
      requires Valid()
      modifies this
      ensures Valid()
      ensures hits == (if isHitboxActive then AddNew(old(hits), overlap) else old(hits))
      ensures isAttacking == old(isAttacking) && isHitboxActive == old(isHitboxActive)
      ensures attackTriggers == old(attackTriggers)
    {
      if isHitboxActive {
        PerformHitCheck(overlap);
      }
    }

    /** `StartAttackHitbox`, an animation event. */
    method StartAttackHitbox()
      modifies this
      ensures isHitboxActive
      ensures isAttacking == old(isAttacking) && hits == old(hits) && attackTriggers == old(attackTriggers)
    {
      isHitboxActive := true;
    }

    /** `FinishAttackHitbox`, an animation event: closes the hitbox and releases the attack lock. */
    method FinishAttackHitbox()
      modifies this
      ensures !isHitboxActive && !isAttacking
      ensures hits == old(hits) && attackTriggers == old(attackTriggers)
    {
      isHitboxActive := false;
      isAttacking := false;
    }
  }
}
