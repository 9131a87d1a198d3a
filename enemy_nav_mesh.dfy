/**
 * The live five-state enemy AI (`EnemyNavMeshAI`). The enemy idles until it
 * is activated, then patrols its points, pursues a player it sees, lurks
 * near the player (melee enemies reposition, ranged ones circle), and
 * attacks when its `EnemyAttack` component allows. The navmesh agent's
 * steering is engine work: the model keeps the state machine, its timers,
 * the patrol index and the circling direction, and takes distances, the
 * view angle, the ray test, arrival at a patrol point and the random coin
 * as inputs.
 */
module EnemyNavMesh {
  import opened Geometry
  import opened Wrappers
  import opened Sight
  import opened PatrolRoute
  import opened Cooldown
  import opened Combat

  datatype AIState = Idle | Patrolling | Pursuing | Lurking | Attacking
  datatype CombatStyle = Melee | Ranged

  /** The circling direction a `Random.value` draw picks: +1 above one half, otherwise -1. */
  function Circling(coin: real): (d: int)
    ensures d == 1 || d == -1
    ensures d == 1 <==> coin > 0.5
  {
    if coin > 0.5 then 1 else -1
  }

  /**
   * The state `CheckConditions` leaves the enemy in, given the player's
   * distance, whether it is seen, and the attack component's readiness.
   */
  function Transition(state: AIState, hasPlayer: bool, distance: real, canSee: bool,
                      justAttacked: bool, canAttack: bool, attackRange: real,
                      engagementDistance: real, maxDetectionRadius: real): (next: AIState)
    // No player, or an Attacking or Idle enemy: nothing changes.
    ensures !hasPlayer || state == Attacking || state == Idle ==> next == state
    // Unseen and beyond the detection radius: back to patrolling.
    ensures hasPlayer && state != Attacking && state != Idle && !canSee && distance > maxDetectionRadius
      ==> next == Patrolling
    // A patrolling enemy starts pursuing only when it sees the player, and always does then.
    ensures state == Patrolling ==> (next == Pursuing <==> hasPlayer && canSee)
    ensures state == Patrolling ==> next == Patrolling || next == Pursuing
    // A pursuing enemy gives up when it loses sight, and closes in within the engagement distance.
    ensures state == Pursuing && hasPlayer && !canSee ==> next == Patrolling
    ensures state == Pursuing ==> (next == Lurking <==> hasPlayer && canSee && distance <= engagementDistance)
    ensures state == Pursuing ==> next != Attacking
    // A lurking enemy pursues again beyond 1.2 engagement distances ...
    ensures state == Lurking && hasPlayer && (canSee || distance <= maxDetectionRadius)
      ==> (next == Pursuing <==> distance > engagementDistance * 1.2)
    // ... and attacks only when it has not just attacked, the cooldown allows and the player is in range.
    ensures next == Attacking && state != Attacking ==>
      state == Lurking && !justAttacked && canAttack && distance <= attackRange
    ensures state == Lurking && hasPlayer && (canSee || distance <= maxDetectionRadius) &&
      distance <= engagementDistance * 1.2 && !justAttacked && canAttack && distance <= attackRange
      ==> next == Attacking
    // Nothing but `SetState(Idle)` leads to Idle, and CheckConditions never asks for it.
    ensures next == Idle ==> state == Idle
  {
    if !hasPlayer || state == Attacking || state == Idle then state
    else if !canSee && distance > maxDetectionRadius then Patrolling
    else match state
      case Patrolling => if canSee then Pursuing else state
      case Pursuing =>
        if !canSee then Patrolling
        else if distance <= engagementDistance then Lurking
        else state
      case Lurking =>
        if distance > engagementDistance * 1.2 then Pursuing
        else if !justAttacked && canAttack && distance <= attackRange then Attacking
        else state
  }

  /**
   * One frame of `LurkRanged`'s stuck detector: `stalled` is "the agent has
   * a path but moves slower than the threshold". The stuck time grows by the
   * frame time while stalled and drops to 0 otherwise; past 0.75 seconds
   * the circling direction flips and the stuck time starts over.
   */
  function StuckStep(timeStuck: real, dt: real, stalled: bool): (r: (real, bool))
    ensures r.1 <==> stalled && timeStuck + dt > 0.75
    ensures r.1 || !stalled ==> r.0 == 0.0
    ensures !r.1 && stalled ==> r.0 == timeStuck + dt
  {
    var t := if stalled then timeStuck + dt else 0.0;
    if t > 0.75 then (0.0, true) else (t, false)
  }

  /**
   * Flips over a stall of several frames when the stuck time is kept from
   * one frame to the next.
   */
  function CarriedFlips(timeStuck: real, dts: seq<real>): nat
    decreases |dts|
  {
    if dts == [] then 0
    else
      var (t, flip) := StuckStep(timeStuck, dts[0], true);
      (if flip then 1 else 0) + CarriedFlips(t, dts[1..])
  }

  /** Flips over a stall of several frames as `LurkRanged` is written: every frame starts from 0. */
  function FreshFlips(dts: seq<real>): nat
  {
    if dts == [] then 0
    else (if StuckStep(0.0, dts[0], true).1 then 1 else 0) + FreshFlips(dts[1..])
  }

  /** As written, a stall of any length goes unnoticed while no single frame exceeds 0.75 seconds. */
  lemma {:induction false} FreshFlipsNever(dts: seq<real>)
    requires forall i :: 0 <= i < |dts| ==> dts[i] <= 0.75
    ensures FreshFlips(dts) == 0
  {
    if dts != [] {
      assert dts[0] <= 0.75;
      FreshFlipsNever(dts[1..]);
    }
  }

  /** A one-second stall in two half-second frames: never reversed as written, reversed once when carried. */
  lemma StallGoesUnnoticed()
    ensures FreshFlips([0.5, 0.5]) == 0
    ensures CarriedFlips(0.0, [0.5, 0.5]) == 1
  {
    assert [0.5, 0.5][1..] == [0.5];
  }

  /** With the stuck time carried over, any stall longer than 0.75 seconds reverses the direction. */
  lemma {:induction false} CarriedFlipsAfterStall(timeStuck: real, dts: seq<real>)
    requires NonNegative(dts)
    requires timeStuck <= 0.75 && timeStuck + Sum(dts) > 0.75
    ensures CarriedFlips(timeStuck, dts) >= 1
    decreases |dts|
  {
    var (t, flip) := StuckStep(timeStuck, dts[0], true);
    if !flip {
      assert NonNegative(dts[1..]) by {
        forall i | 0 <= i < |dts[1..]| ensures dts[1..][i] >= 0.0 {
          assert dts[1..][i] == dts[i + 1];
        }
      }
      CarriedFlipsAfterStall(t, dts[1..]);
    }
  }

  class EnemyNavMeshAI {
    var currentState: AIState
    var combatStyle: CombatStyle
    var patrolPoints: seq<Vec3>
    var engagementDistance: real
    var meleeRepositionTime: real
    var directionChangeInterval: real
    var maxDetectionRadius: real
    var viewAngle: real
    var enemyAttack: EnemyAttack
    /** `playerTarget != null`: a player has been found. */
    var hasPlayer: bool
    var currentPatrolIndex: int
    var timeInCurrentState: real
    var timeSinceLastMeleeReposition: real
    var circlingDirection: int
    var justAttacked: bool
    /** The last patrol point handed to the navmesh agent. */
    var patrolDestination: Option<Vec3>
    /**
     * The stuck detector's time, kept from one frame to the next. The
     * source resets a local to 0 on every call (see `StallGoesUnnoticed`);
     * the model keeps the time as evidently intended.
     */
    var timeStuck: real

    /** The circling direction is a sign, and the patrol index points into the route. */
    predicate Valid()
      reads this
    {
      (circlingDirection == 1 || circlingDirection == -1) &&
      0 <= currentPatrolIndex &&
      (if |patrolPoints| == 0 then currentPatrolIndex == 0 else currentPatrolIndex < |patrolPoints|)
    }

    /** The inspector settings and the attack component, which no method here changes. */
    function Settings(): (CombatStyle, seq<Vec3>, real, real, real, real, real, EnemyAttack)
      reads this
    {
      (combatStyle, patrolPoints, engagementDistance, meleeRepositionTime,
       directionChangeInterval, maxDetectionRadius, viewAngle, enemyAttack)
    }

    /** The component as the scene creates it: Idle, with the field initialisers' values. */
    constructor (style: CombatStyle, points: seq<Vec3>, engagement: real, repositionTime: real,
                 changeInterval: real, detectionRadius: real, angle: real, attack: EnemyAttack)
      ensures Valid()
      ensures Settings() == (style, points, engagement, repositionTime, changeInterval,
                             detectionRadius, angle, attack)
      ensures currentState == Idle && !hasPlayer && currentPatrolIndex == 0
      ensures timeInCurrentState == 0.0 && timeSinceLastMeleeReposition == 0.0
      ensures circlingDirection == 1 && !justAttacked && patrolDestination == None
      ensures timeStuck == 0.0
    {
      currentState := Idle;
      combatStyle := style;
      patrolPoints := points;
      engagementDistance := engagement;
      meleeRepositionTime := repositionTime;
      directionChangeInterval := changeInterval;
      maxDetectionRadius := detectionRadius;
      viewAngle := angle;
      enemyAttack := attack;
      hasPlayer := false;
      currentPatrolIndex := 0;
      timeInCurrentState := 0.0;
      timeSinceLastMeleeReposition := 0.0;
      circlingDirection := 1;
      justAttacked := false;
      patrolDestination := None;
      timeStuck := 0.0;
    }

    /** `Start`: the patrol begins at the first point. */
    method Start()
      requires Valid()
      modifies this
      ensures Valid() && currentPatrolIndex == 0
      ensures Settings() == old(Settings()) && currentState == old(currentState)
      ensures hasPlayer == old(hasPlayer) && timeInCurrentState == old(timeInCurrentState)
      ensures circlingDirection == old(circlingDirection) && justAttacked == old(justAttacked)
      ensures timeSinceLastMeleeReposition == old(timeSinceLastMeleeReposition)
      ensures patrolDestination == old(patrolDestination)
      ensures timeStuck == old(timeStuck)
    {
      currentPatrolIndex := 0;
    }

    /**
     * `SetState`: asking for the current state changes nothing. Otherwise
     * the state is recorded and its clock restarts; entering Patrolling
     * heads for the current patrol point, and entering Lurking draws a new
     * circling direction and restarts the melee reposition timer.
     */
    method SetState(newState: AIState, coin: real)
      requires Valid()
      modifies this
      ensures Valid() && currentState == newState
      ensures old(currentState) == newState ==> unchanged(this)
      ensures old(currentState) != newState ==> timeInCurrentState == 0.0
      ensures old(currentState) != newState && newState == Lurking ==>
        circlingDirection == Circling(coin) && timeSinceLastMeleeReposition == 0.0
      ensures old(currentState) == newState || newState != Lurking ==>
        circlingDirection == old(circlingDirection) &&
        timeSinceLastMeleeReposition == old(timeSinceLastMeleeReposition)
      ensures old(currentState) != newState && newState == Patrolling && |patrolPoints| > 0 ==>
        patrolDestination == Some(patrolPoints[currentPatrolIndex])
      ensures old(currentState) == newState || newState != Patrolling || |patrolPoints| == 0 ==>
        patrolDestination == old(patrolDestination)
      ensures Settings() == old(Settings()) && hasPlayer == old(hasPlayer)
      ensures currentPatrolIndex == old(currentPatrolIndex) && justAttacked == old(justAttacked)
      ensures timeStuck == old(timeStuck)
    {
      if currentState == newState {
        return;
      }
      currentState := newState;
      timeInCurrentState := 0.0;
      match newState
      case Idle =>
      case Patrolling =>
        if |patrolPoints| > 0 {
          patrolDestination := Some(patrolPoints[currentPatrolIndex]);
        }
      case Pursuing =>
      case Lurking =>
        circlingDirection := Circling(coin);
        timeSinceLastMeleeReposition := 0.0;
      case Attacking =>
    }

    /** `ActivateAI`: start patrolling. The repeated `CheckConditions` schedule is the caller's. */
    method ActivateAI()
      requires Valid()
      modifies this
      ensures Valid() && currentState == Patrolling
      ensures old(currentState) != Patrolling ==> timeInCurrentState == 0.0
      ensures old(currentState) != Patrolling && |patrolPoints| > 0 ==>
        patrolDestination == Some(patrolPoints[currentPatrolIndex])
      ensures Settings() == old(Settings()) && hasPlayer == old(hasPlayer)
      ensures currentPatrolIndex == old(currentPatrolIndex) && justAttacked == old(justAttacked)
      ensures circlingDirection == old(circlingDirection)
      ensures timeStuck == old(timeStuck)
    {
      SetState(Patrolling, 0.0);
    }

    /**
     * `CheckConditions`, run on a timer: the player's distance, the angle
     * to it and the obstacle ray test are inputs. The enemy ends in the
     * state `Transition` names, and stays exactly as it was when that is
     * its current state.
     */
    method CheckConditions(distance: real, angle: real, blocked: bool, coin: real)
      requires Valid()
      modifies this
      ensures Valid()
      ensures currentState == Transition(old(currentState), hasPlayer, distance,
        CanSeePlayer(hasPlayer, distance, maxDetectionRadius, angle, viewAngle, blocked),
        justAttacked, enemyAttack.CanAttack(), enemyAttack.attackRange,
        engagementDistance, maxDetectionRadius)
      ensures currentState == old(currentState) ==> unchanged(this)
      ensures currentState != old(currentState) ==> timeInCurrentState == 0.0
      ensures currentState != old(currentState) && currentState == Lurking ==>
        circlingDirection == Circling(coin) && timeSinceLastMeleeReposition == 0.0
      ensures Settings() == old(Settings()) && hasPlayer == old(hasPlayer)
      ensures currentPatrolIndex == old(currentPatrolIndex) && justAttacked == old(justAttacked)
      ensures timeStuck == old(timeStuck)
    {
      if !hasPlayer || currentState == Attacking || currentState == Idle {
        return;
      }
      var canSee := CanSeePlayer(hasPlayer, distance, maxDetectionRadius, angle, viewAngle, blocked);
      if !canSee && distance > maxDetectionRadius {
        SetState(Patrolling, coin);
        return;
      }
      match currentState
      case Patrolling =>
        if canSee {
          SetState(Pursuing, coin);
        }
      case Pursuing =>
        if !canSee {
          SetState(Patrolling, coin);
        } else if distance <= engagementDistance {
          SetState(Lurking, coin);
        }
      case Lurking =>
        if distance > engagementDistance * 1.2 {
          SetState(Pursuing, coin);
        } else if !justAttacked && enemyAttack.CanAttack() && distance <= enemyAttack.attackRange {
          SetState(Attacking, coin);
        }
    }

    /**
     * `Patrol`: with no patrol points nothing happens; on arrival at the
     * current point the index moves one step round the route and the agent
     * heads for the new point.
     */
    method Patrol(arrived: bool)
      requires Valid()
      modifies this
      ensures Settings() == old(Settings()) && currentState == old(currentState)
      ensures Valid()
      ensures currentPatrolIndex ==
        if |patrolPoints| > 0 && arrived then NextIndex(old(currentPatrolIndex), |patrolPoints|)
        else old(currentPatrolIndex)
      ensures |patrolPoints| > 0 && arrived ==> patrolDestination == Some(patrolPoints[currentPatrolIndex])
      ensures |patrolPoints| == 0 || !arrived ==> patrolDestination == old(patrolDestination)
      ensures hasPlayer == old(hasPlayer) && timeInCurrentState == old(timeInCurrentState)
      ensures circlingDirection == old(circlingDirection) && justAttacked == old(justAttacked)
      ensures timeSinceLastMeleeReposition == old(timeSinceLastMeleeReposition)
      ensures timeStuck == old(timeStuck)
    {
      if |patrolPoints| == 0 {
        return;
      }
      if arrived {
        currentPatrolIndex := NextIndex(currentPatrolIndex, |patrolPoints|);
        patrolDestination := Some(patrolPoints[currentPatrolIndex]);
      }
    }

    /** `ForceMeleeReposition`: with a player, the reposition timer restarts. */
    method ForceMeleeReposition()
      modifies this
      ensures timeSinceLastMeleeReposition == if old(hasPlayer) then 0.0 else old(timeSinceLastMeleeReposition)
      ensures Settings() == old(Settings()) && currentState == old(currentState)
      ensures hasPlayer == old(hasPlayer) && timeInCurrentState == old(timeInCurrentState)
      ensures circlingDirection == old(circlingDirection) && justAttacked == old(justAttacked)
      ensures currentPatrolIndex == old(currentPatrolIndex)
      ensures patrolDestination == old(patrolDestination)
      ensures timeStuck == old(timeStuck)
    {
      if !hasPlayer {
        return;
      }
      timeSinceLastMeleeReposition := 0.0;
    }

    /**
     * `LurkMelee`: right after an attack the enemy repositions at once and
     * clears the flag; otherwise the reposition timer runs and the enemy
     * repositions when it reaches `meleeRepositionTime`. Either way the
     * timer ends below `meleeRepositionTime` or at 0.
     */
    method LurkMelee(dt: real)
      requires Valid() && hasPlayer
      modifies this
      ensures Valid() && !justAttacked
      ensures timeSinceLastMeleeReposition ==
        if old(justAttacked) || old(timeSinceLastMeleeReposition) + dt >= meleeRepositionTime then 0.0
        else old(timeSinceLastMeleeReposition) + dt
      ensures timeSinceLastMeleeReposition == 0.0 || timeSinceLastMeleeReposition < meleeRepositionTime
      ensures Settings() == old(Settings()) && currentState == old(currentState)
      ensures hasPlayer == old(hasPlayer) && timeInCurrentState == old(timeInCurrentState)
      ensures circlingDirection == old(circlingDirection)
      ensures currentPatrolIndex == old(currentPatrolIndex)
      ensures patrolDestination == old(patrolDestination)
      ensures timeStuck == old(timeStuck)
    {
      if justAttacked {
        justAttacked := false;
        ForceMeleeReposition();
        return;
      }
      timeSinceLastMeleeReposition := timeSinceLastMeleeReposition + dt;
      if timeSinceLastMeleeReposition >= meleeRepositionTime {
        ForceMeleeReposition();
      }
    }

    /**
     * `LurkRanged`: the stuck detector may reverse the circling direction,
     * and once the state's clock passes `directionChangeInterval` the clock
     * restarts and a fresh direction is drawn. The detector's stuck time is
     * carried over from the previous frame (`StuckStep`), so a stall spread
     * over several frames is noticed. The direction stays a sign.
     */
    method LurkRanged(dt: real, stalled: bool, coin: real)
      requires Valid()
      modifies this
      ensures Valid()
      ensures old(timeInCurrentState) > directionChangeInterval && hasPlayer ==>
        timeInCurrentState == 0.0 && circlingDirection == Circling(coin)
      ensures !(old(timeInCurrentState) > directionChangeInterval && hasPlayer) ==>
        timeInCurrentState == old(timeInCurrentState) &&
        circlingDirection ==
          if hasPlayer && StuckStep(old(timeStuck), dt, stalled).1 then -old(circlingDirection) else old(circlingDirection)
      ensures timeStuck == if hasPlayer then StuckStep(old(timeStuck), dt, stalled).0 else old(timeStuck)
      ensures Settings() == old(Settings()) && currentState == old(currentState)
      ensures hasPlayer == old(hasPlayer) && justAttacked == old(justAttacked)
      ensures timeSinceLastMeleeReposition == old(timeSinceLastMeleeReposition)
      ensures currentPatrolIndex == old(currentPatrolIndex)
      ensures patrolDestination == old(patrolDestination)
    {
      if !hasPlayer {
        return;
      }
      var (t, flip) := StuckStep(timeStuck, dt, stalled);
      timeStuck := t;
      if flip {
        circlingDirection := -circlingDirection;
      }
      if timeInCurrentState > directionChangeInterval {
        timeInCurrentState := 0.0;
        circlingDirection := Circling(coin);
      }
    }

    /** `Lurk`: with a player, the style decides between repositioning and circling. */
    method Lurk(dt: real, stalled: bool, coin: real)
      requires Valid()
      modifies this
      ensures Valid()
      ensures !hasPlayer ==> unchanged(this)
      ensures hasPlayer && combatStyle == CombatStyle.Melee ==>
        !justAttacked &&
        (timeSinceLastMeleeReposition == 0.0 || timeSinceLastMeleeReposition < meleeRepositionTime)
      ensures hasPlayer && combatStyle == CombatStyle.Melee ==>
        timeSinceLastMeleeReposition ==
          (if old(justAttacked) || old(timeSinceLastMeleeReposition) + dt >= meleeRepositionTime then 0.0
           else old(timeSinceLastMeleeReposition) + dt) &&
        timeInCurrentState == old(timeInCurrentState) && circlingDirection == old(circlingDirection)
      ensures hasPlayer && combatStyle == CombatStyle.Ranged ==>
        timeStuck == StuckStep(old(timeStuck), dt, stalled).0 &&
        (if old(timeInCurrentState) > directionChangeInterval
         then timeInCurrentState == 0.0 && circlingDirection == Circling(coin)
         else (timeInCurrentState == old(timeInCurrentState) &&
               circlingDirection ==
                 if StuckStep(old(timeStuck), dt, stalled).1 then -old(circlingDirection) else old(circlingDirection))) &&
        justAttacked == old(justAttacked) && timeSinceLastMeleeReposition == old(timeSinceLastMeleeReposition)
      ensures Settings() == old(Settings()) && currentState == old(currentState)
      ensures hasPlayer == old(hasPlayer) && currentPatrolIndex == old(currentPatrolIndex)
      ensures patrolDestination == old(patrolDestination)
      ensures combatStyle == CombatStyle.Melee ==> timeStuck == old(timeStuck)
    {
      if !hasPlayer {
        return;
      }
      if combatStyle == CombatStyle.Melee {
        LurkMelee(dt);
      } else {
        LurkRanged(dt, stalled, coin);
      }
    }

    /**
     * `Attack`, run each frame while Attacking: without a player the enemy
     * goes back to patrolling. Otherwise the attack component is asked to
     * attack in the state's first two frames, and once the state has lasted
     * `attackDuration` the enemy returns to Lurking, remembering the attack
     * when it fights in melee.
     */
    method Attack(dt: real, target: Vec3, coin: real)
      requires Valid() && currentState == Attacking
      modifies this, enemyAttack
      ensures Settings() == old(Settings()) && hasPlayer == old(hasPlayer)
      ensures Valid()
      ensures !hasPlayer ==>
        currentState == Patrolling && unchanged(enemyAttack) && timeInCurrentState == 0.0 &&
        patrolDestination == (if |patrolPoints| > 0 then Some(patrolPoints[currentPatrolIndex]) else old(patrolDestination)) &&
        circlingDirection == old(circlingDirection) && justAttacked == old(justAttacked) &&
        timeSinceLastMeleeReposition == old(timeSinceLastMeleeReposition)
      ensures hasPlayer && old(timeInCurrentState) < dt * 2.0 ==> Performed(enemyAttack, target)
      ensures hasPlayer && !(old(timeInCurrentState) < dt * 2.0) ==> unchanged(enemyAttack)
      ensures hasPlayer && old(timeInCurrentState) >= old(enemyAttack.attackDuration) ==>
        currentState == Lurking && timeInCurrentState == 0.0 && circlingDirection == Circling(coin) &&
        timeSinceLastMeleeReposition == 0.0 &&
        justAttacked == (old(justAttacked) || combatStyle == CombatStyle.Melee)
      ensures hasPlayer && old(timeInCurrentState) < old(enemyAttack.attackDuration) ==>
        currentState == Attacking && timeInCurrentState == old(timeInCurrentState) &&
        justAttacked == old(justAttacked) && circlingDirection == old(circlingDirection) &&
        timeSinceLastMeleeReposition == old(timeSinceLastMeleeReposition)
      ensures hasPlayer ==> patrolDestination == old(patrolDestination)
      ensures enemyAttack.attackDuration == old(enemyAttack.attackDuration)
      ensures enemyAttack.attackCooldown == old(enemyAttack.attackCooldown)
      ensures enemyAttack.attackRange == old(enemyAttack.attackRange)
      ensures currentPatrolIndex == old(currentPatrolIndex)
      ensures timeStuck == old(timeStuck)
    {
      if !hasPlayer {
        SetState(Patrolling, coin);
        return;
      }
      if timeInCurrentState < dt * 2.0 {
        enemyAttack.PerformAttack(target);
      }
      if timeInCurrentState >= enemyAttack.attackDuration {
        if combatStyle == CombatStyle.Melee {
          justAttacked := true;
        }
        SetState(Lurking, coin);
      }
    }

    /**
     * The `switch` at the end of `Update`: the current state's behaviour,
     * run after the clock has advanced. Pursuing only steers the agent,
     * which is the engine's.
     */
    method Behave(dt: real, arrived: bool, stalled: bool, target: Vec3, coin: real)
      requires Valid() && currentState != Idle && (hasPlayer || currentState == Patrolling)
      modifies this, enemyAttack
      ensures Valid() && Settings() == old(Settings()) && hasPlayer == old(hasPlayer)
      ensures old(currentState) != Attacking ==> unchanged(enemyAttack)
      ensures old(currentState) == Patrolling ==>
        currentState == Patrolling && timeInCurrentState == old(timeInCurrentState) &&
        currentPatrolIndex ==
          (if |patrolPoints| > 0 && arrived then NextIndex(old(currentPatrolIndex), |patrolPoints|)
           else old(currentPatrolIndex)) &&
        patrolDestination ==
          (if |patrolPoints| > 0 && arrived then Some(patrolPoints[currentPatrolIndex]) else old(patrolDestination)) &&
        circlingDirection == old(circlingDirection) && justAttacked == old(justAttacked) &&
        timeSinceLastMeleeReposition == old(timeSinceLastMeleeReposition) && timeStuck == old(timeStuck)
      ensures old(currentState) == Pursuing ==> unchanged(this)
      ensures old(currentState) == Lurking ==>
        currentState == Lurking && currentPatrolIndex == old(currentPatrolIndex) &&
        patrolDestination == old(patrolDestination)
      ensures old(currentState) == Lurking && combatStyle == CombatStyle.Melee ==>
        timeInCurrentState == old(timeInCurrentState) && !justAttacked &&
        timeSinceLastMeleeReposition ==
          (if old(justAttacked) || old(timeSinceLastMeleeReposition) + dt >= meleeRepositionTime then 0.0
           else old(timeSinceLastMeleeReposition) + dt) &&
        circlingDirection == old(circlingDirection) && timeStuck == old(timeStuck)
      ensures old(currentState) == Lurking && combatStyle == CombatStyle.Ranged ==>
        timeStuck == StuckStep(old(timeStuck), dt, stalled).0 &&
        (if old(timeInCurrentState) > directionChangeInterval
         then timeInCurrentState == 0.0 && circlingDirection == Circling(coin)
         else (timeInCurrentState == old(timeInCurrentState) &&
               circlingDirection ==
                 if StuckStep(old(timeStuck), dt, stalled).1 then -old(circlingDirection) else old(circlingDirection))) &&
        justAttacked == old(justAttacked) && timeSinceLastMeleeReposition == old(timeSinceLastMeleeReposition)
      ensures old(currentState) == Attacking ==>
        (old(timeInCurrentState) < dt * 2.0 ==> Performed(enemyAttack, target)) &&
        (!(old(timeInCurrentState) < dt * 2.0) ==> unchanged(enemyAttack)) &&
        currentPatrolIndex == old(currentPatrolIndex) && patrolDestination == old(patrolDestination) &&
        timeStuck == old(timeStuck)
      ensures old(currentState) == Attacking && old(timeInCurrentState) >= old(enemyAttack.attackDuration) ==>
        currentState == Lurking && timeInCurrentState == 0.0 && circlingDirection == Circling(coin) &&
        timeSinceLastMeleeReposition == 0.0 &&
        justAttacked == (old(justAttacked) || combatStyle == CombatStyle.Melee)
      ensures old(currentState) == Attacking && old(timeInCurrentState) < old(enemyAttack.attackDuration) ==>
        currentState == Attacking && timeInCurrentState == old(timeInCurrentState) &&
        justAttacked == old(justAttacked) && circlingDirection == old(circlingDirection) &&
        timeSinceLastMeleeReposition == old(timeSinceLastMeleeReposition)
    {
      match currentState
      case Patrolling => Patrol(arrived);
      case Pursuing =>
      case Lurking => Lurk(dt, stalled, coin);
      case Attacking => Attack(dt, target, coin);
    }

    /**
     * The start of `Update`: a player found this frame is kept; an enemy
     * that is not Idle falls back to patrolling without a player, and its
     * state's clock advances by `dt`.
     */
    method Advance(found: bool, dt: real, coin: real)
      requires Valid()
      modifies this
      ensures Valid() && Settings() == old(Settings())
      ensures hasPlayer == (old(hasPlayer) || found)
      ensures old(currentState) == Idle ==>
        currentState == Idle && timeInCurrentState == old(timeInCurrentState) &&
        patrolDestination == old(patrolDestination)
      ensures old(currentState) != Idle && (hasPlayer || old(currentState) == Patrolling) ==>
        currentState == old(currentState) && timeInCurrentState == old(timeInCurrentState) + dt &&
        patrolDestination == old(patrolDestination)
      ensures old(currentState) != Idle && !hasPlayer && old(currentState) != Patrolling ==>
        currentState == Patrolling && timeInCurrentState == dt &&
        patrolDestination == (if |patrolPoints| > 0 then Some(patrolPoints[currentPatrolIndex]) else old(patrolDestination))
      ensures currentPatrolIndex == old(currentPatrolIndex) && circlingDirection == old(circlingDirection)
      ensures justAttacked == old(justAttacked) && timeSinceLastMeleeReposition == old(timeSinceLastMeleeReposition)
      ensures timeStuck == old(timeStuck)
    {
      if found {
        hasPlayer := true;
      }
      if currentState == Idle {
        return;
      }
      if !hasPlayer && currentState != Patrolling {
        SetState(Patrolling, coin);
      }
      timeInCurrentState := timeInCurrentState + dt;
    }

    /**
     * `Update`, once per frame: a player found this frame is kept. An Idle
     * enemy does nothing more; without a player the enemy falls back to
     * patrolling; the state's clock advances by `dt` and the state's own
     * behaviour runs. `target` is the player's position.
     */
    method Update(found: bool, dt: real, arrived: bool, stalled: bool, target: Vec3, coin: real)
      requires Valid()
      modifies this, enemyAttack
      ensures Settings() == old(Settings())
      ensures Valid()
      ensures hasPlayer == (old(hasPlayer) || found)
      ensures old(currentState) == Idle ==> currentState == Idle && unchanged(enemyAttack)
      ensures old(currentState) != Idle ==> currentState != Idle
      ensures old(currentState) != Idle && !hasPlayer ==> currentState == Patrolling
      ensures currentState == old(currentState) || currentState == Patrolling ||
        (old(currentState) == Attacking && currentState == Lurking)
      // An Idle enemy only notices the player.
      ensures old(currentState) == Idle ==>
        timeInCurrentState == old(timeInCurrentState) && currentPatrolIndex == old(currentPatrolIndex) &&
        patrolDestination == old(patrolDestination) && circlingDirection == old(circlingDirection) &&
        justAttacked == old(justAttacked) && timeSinceLastMeleeReposition == old(timeSinceLastMeleeReposition) &&
        timeStuck == old(timeStuck)
      // Patrolling, kept or fallen back to: the clock runs (from 0 after a fall-back) and `Patrol` moves on.
      ensures old(currentState) != Idle && (!hasPlayer || old(currentState) == Patrolling) ==>
        unchanged(enemyAttack) &&
        timeInCurrentState == (if old(currentState) == Patrolling then old(timeInCurrentState) else 0.0) + dt &&
        currentPatrolIndex ==
          (if |patrolPoints| > 0 && arrived then NextIndex(old(currentPatrolIndex), |patrolPoints|)
           else old(currentPatrolIndex)) &&
        patrolDestination ==
          (if |patrolPoints| > 0 && (arrived || old(currentState) != Patrolling) then Some(patrolPoints[currentPatrolIndex])
           else old(patrolDestination)) &&
        circlingDirection == old(circlingDirection) && justAttacked == old(justAttacked) &&
        timeSinceLastMeleeReposition == old(timeSinceLastMeleeReposition) && timeStuck == old(timeStuck)
      // Pursuing: only the clock runs; the agent's destination is the engine's.
      ensures hasPlayer && old(currentState) == Pursuing ==>
        currentState == Pursuing && unchanged(enemyAttack) &&
        timeInCurrentState == old(timeInCurrentState) + dt && currentPatrolIndex == old(currentPatrolIndex) &&
        patrolDestination == old(patrolDestination) && circlingDirection == old(circlingDirection) &&
        justAttacked == old(justAttacked) && timeSinceLastMeleeReposition == old(timeSinceLastMeleeReposition) &&
        timeStuck == old(timeStuck)
      // Lurking in melee: `LurkMelee` after the clock advanced.
      ensures hasPlayer && old(currentState) == Lurking && combatStyle == CombatStyle.Melee ==>
        unchanged(enemyAttack) && timeInCurrentState == old(timeInCurrentState) + dt && !justAttacked &&
        timeSinceLastMeleeReposition ==
          (if old(justAttacked) || old(timeSinceLastMeleeReposition) + dt >= meleeRepositionTime then 0.0
           else old(timeSinceLastMeleeReposition) + dt) &&
        circlingDirection == old(circlingDirection) && currentPatrolIndex == old(currentPatrolIndex) &&
        patrolDestination == old(patrolDestination) && timeStuck == old(timeStuck)
      // Lurking at range: `LurkRanged` after the clock advanced.
      ensures hasPlayer && old(currentState) == Lurking && combatStyle == CombatStyle.Ranged ==>
        unchanged(enemyAttack) && timeStuck == StuckStep(old(timeStuck), dt, stalled).0 &&
        (if old(timeInCurrentState) + dt > directionChangeInterval
         then timeInCurrentState == 0.0 && circlingDirection == Circling(coin)
         else (timeInCurrentState == old(timeInCurrentState) + dt &&
               circlingDirection ==
                 if StuckStep(old(timeStuck), dt, stalled).1 then -old(circlingDirection) else old(circlingDirection))) &&
        justAttacked == old(justAttacked) && timeSinceLastMeleeReposition == old(timeSinceLastMeleeReposition) &&
        currentPatrolIndex == old(currentPatrolIndex) && patrolDestination == old(patrolDestination)
      // Attacking: `Attack` after the clock advanced.
      ensures hasPlayer && old(currentState) == Attacking ==>
        (old(timeInCurrentState) + dt < dt * 2.0 ==> Performed(enemyAttack, target)) &&
        (!(old(timeInCurrentState) + dt < dt * 2.0) ==> unchanged(enemyAttack)) &&
        currentPatrolIndex == old(currentPatrolIndex) && patrolDestination == old(patrolDestination) &&
        timeStuck == old(timeStuck)
      ensures hasPlayer && old(currentState) == Attacking && old(timeInCurrentState) + dt >= old(enemyAttack.attackDuration) ==>
        currentState == Lurking && timeInCurrentState == 0.0 && circlingDirection == Circling(coin) &&
        timeSinceLastMeleeReposition == 0.0 &&
        justAttacked == (old(justAttacked) || combatStyle == CombatStyle.Melee)
      ensures hasPlayer && old(currentState) == Attacking && old(timeInCurrentState) + dt < old(enemyAttack.attackDuration) ==>
        currentState == Attacking && timeInCurrentState == old(timeInCurrentState) + dt &&
        justAttacked == old(justAttacked) && circlingDirection == old(circlingDirection) &&
        timeSinceLastMeleeReposition == old(timeSinceLastMeleeReposition)
    {
      Advance(found, dt, coin);
      if currentState != Idle {
        Behave(dt, arrived, stalled, target, coin);
      }
    }
  }
}
