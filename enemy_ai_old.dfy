/**
 * The first, two-state enemy AI (`OLD/EnemyAI.cs`): it patrols with a
 * `PatternMovement` component and pursues with a `PlayerPursuit` component,
 * and `SwitchState` enables exactly the component of the new state. The
 * player is looked up once, in `Awake`; the distance, the view angle and
 * the ray test are inputs.
 */
module EnemyAIOld {
  import opened Sight

  datatype AIState = Patrolling | Pursuing

  /**
   * The state `CheckForPlayer` leaves the enemy in: with a player, the enemy
   * pursues exactly when it sees the player; without one nothing changes.
   */
  function Next(state: AIState, hasPlayer: bool, canSee: bool): (next: AIState)
    ensures !hasPlayer ==> next == state
    ensures hasPlayer ==> (next == Pursuing <==> canSee)
  {
    if !hasPlayer then state
    else match state
      case Patrolling => if canSee then Pursuing else state
      case Pursuing => if !canSee then Patrolling else state
  }

  class EnemyAI {
    var currentState: AIState
    var viewRadius: real
    var viewAngle: real
    /** `playerTarget != null`: `Awake` found the player. */
    var hasPlayer: bool
    /** The `enabled` flags of the two movement components. */
    var patternMovementEnabled: bool
    var playerPursuitEnabled: bool

    /** Exactly the component of the current state is enabled. */
    predicate Consistent()
      reads this
    {
      patternMovementEnabled == (currentState == Patrolling) &&
      playerPursuitEnabled == (currentState == Pursuing)
    }

    /**
     * The component as created and woken: Patrolling by its field
     * initialiser, `Awake`'s lookup of the player gives `found`, and the two
     * movement components start with the given `enabled` flags.
     */
    constructor (radius: real, angle: real, found: bool, patternEnabled: bool, pursuitEnabled: bool)
      ensures currentState == Patrolling && viewRadius == radius && viewAngle == angle
      ensures hasPlayer == found
      ensures patternMovementEnabled == patternEnabled && playerPursuitEnabled == pursuitEnabled
    {
      currentState := Patrolling;
      viewRadius := radius;
      viewAngle := angle;
      hasPlayer := found;
      patternMovementEnabled := patternEnabled;
      playerPursuitEnabled := pursuitEnabled;
    }

    /**
     * `SwitchState`: switching to the current state changes nothing;
     * otherwise the state is recorded and exactly its component is enabled.
     */
    method SwitchState(newState: AIState)
      modifies this
      ensures currentState == newState
      ensures old(currentState) == newState ==> unchanged(this)
      ensures old(currentState) != newState ==> Consistent()
      ensures viewRadius == old(viewRadius) && viewAngle == old(viewAngle) && hasPlayer == old(hasPlayer)
    {
      if currentState == newState {
        return;
      }
      currentState := newState;
      match currentState
      case Patrolling =>
        playerPursuitEnabled := false;
        patternMovementEnabled := true;
      case Pursuing =>
        patternMovementEnabled := false;
        playerPursuitEnabled := true;
    }

    /**
     * `Start` as written: `SwitchState(Patrolling)`, which is a no-op for an
     * enemy that is already Patrolling, as every fresh one is. The
     * components' flags are then left as they were.
     */
    method Start()
      modifies this
      ensures currentState == Patrolling
      ensures old(currentState) == Patrolling ==> unchanged(this)
      ensures old(currentState) != Patrolling ==> Consistent()
    {
      SwitchState(Patrolling);
    }

    /** `Start` as evidently intended: Patrolling, with only the patrol component enabled. */
    method StartCorrected()
      modifies this
      ensures currentState == Patrolling && Consistent()
      ensures viewRadius == old(viewRadius) && viewAngle == old(viewAngle) && hasPlayer == old(hasPlayer)
    {
      currentState := Patrolling;
      playerPursuitEnabled := false;
      patternMovementEnabled := true;
    }

    /**
     * `CheckForPlayer`, run on a timer: the enemy ends in the state `Next`
     * names for what `CanSeePlayer` reports, and a consistent enemy stays
     * consistent.
     */
    method CheckForPlayer(distance: real, angle: real, blocked: bool)
      modifies this
      ensures currentState ==
        Next(old(currentState), hasPlayer, CanSeePlayer(hasPlayer, distance, viewRadius, angle, viewAngle, blocked))
      ensures currentState == old(currentState) ==> unchanged(this)
      ensures currentState != old(currentState) ==> Consistent()
      ensures old(Consistent()) ==> Consistent()
      ensures viewRadius == old(viewRadius) && viewAngle == old(viewAngle) && hasPlayer == old(hasPlayer)
    {
      if !hasPlayer {
        return;
      }
      var canSeePlayer := CanSeePlayer(hasPlayer, distance, viewRadius, angle, viewAngle, blocked);
      if currentState == Patrolling && canSeePlayer {
        SwitchState(Pursuing);
      } else if currentState == Pursuing && !canSeePlayer {
        SwitchState(Patrolling);
      }
    }
  }

  /**
   * A fresh enemy whose two components are both enabled (as components are
   * when they are added) still has both enabled after `Start`: it patrols
   * and pursues at once until its first switch.
   */
  method StartLeavesBothEnabled() returns (pattern: bool, pursuit: bool)
    ensures pattern && pursuit
  {
    var enemy := new EnemyAI(15.0, 90.0, true, true, true);
    enemy.Start();
    pattern, pursuit := enemy.patternMovementEnabled, enemy.playerPursuitEnabled;
  }

  /** The corrected start makes the same fresh enemy consistent, and checks keep it so. */
  method CorrectedStartIsConsistent(distance: real, angle: real, blocked: bool) returns (pattern: bool, pursuit: bool)
    ensures pattern != pursuit
  {
    var enemy := new EnemyAI(15.0, 90.0, true, true, true);
    enemy.StartCorrected();
    enemy.CheckForPlayer(distance, angle, blocked);
    pattern, pursuit := enemy.patternMovementEnabled, enemy.playerPursuitEnabled;
  }
}
