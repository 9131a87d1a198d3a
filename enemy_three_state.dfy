/**
 * The earlier three-state enemy AI (the `EnemyNavMeshAI` class of
 * `NewMonoBehaviourScript.cs`): Patrolling, Pursuing and Lurking, with the
 * attack decided inside Lurking. The player is looked up once, in `Awake`;
 * distances, the view angle, the ray test and arrival are inputs.
 */
module EnemyThreeState {
  import opened Geometry
  import opened Wrappers
  import opened Sight
  import opened PatrolRoute
  import opened LegacyCombat

  datatype AIState = Patrolling | Pursuing | Lurking

  /** The state `CheckConditions` leaves the enemy in. */
  function Transition(state: AIState, hasPlayer: bool, distance: real, canSee: bool,
                      engagementDistance: real, maxDetectionRadius: real): (next: AIState)
    // No player: nothing changes.
    ensures !hasPlayer ==> next == state
    // Unseen and beyond the detection radius: back to patrolling.
    ensures hasPlayer && !canSee && distance > maxDetectionRadius ==> next == Patrolling
    // Patrolling starts pursuing exactly when the player is seen.
    ensures state == Patrolling ==> (next == Pursuing <==> hasPlayer && canSee)
    ensures state == Patrolling ==> next != Lurking
    // Pursuing gives up when it loses sight, and closes in within the engagement distance.
    ensures state == Pursuing && hasPlayer && !canSee ==> next == Patrolling
    ensures state == Pursuing ==> (next == Lurking <==> hasPlayer && canSee && distance <= engagementDistance)
    // Lurking pursues again beyond 1.2 engagement distances and otherwise keeps lurking.
    ensures state == Lurking && hasPlayer && (canSee || distance <= maxDetectionRadius) ==>
      next == (if distance > engagementDistance * 1.2 then Pursuing else Lurking)
    // Lurking is only ever entered with a player.
    ensures next == Lurking ==> hasPlayer || state == Lurking
  {
    if !hasPlayer then state
    else if !canSee && distance > maxDetectionRadius then Patrolling
    else match state
      case Patrolling => if canSee then Pursuing else state
      case Pursuing =>
        if !canSee then Patrolling
        else if distance <= engagementDistance then Lurking
        else state
      case Lurking =>
        if distance > engagementDistance * 1.2 then Pursuing else state
  }

  /**
   * The lurk timer after one evasion frame of `dt` seconds: it runs, and
   * drops back to 0 as soon as it reaches `lurkPointChangeTime`, when a new
   * evasion point is picked.
   */
  function LurkTimer(timer: real, dt: real, lurkPointChangeTime: real): (t: real)
    ensures t == 0.0 || t < lurkPointChangeTime
    ensures timer + dt < lurkPointChangeTime ==> t == timer + dt
    ensures t == 0.0 || t == timer + dt
  {
    if timer + dt >= lurkPointChangeTime then 0.0 else timer + dt
  }

  /** The timer after a run of evasion frames. */
  function LurkTimers(timer: real, dts: seq<real>, lurkPointChangeTime: real): real
    decreases |dts|
  {
    if dts == [] then timer else LurkTimers(LurkTimer(timer, dts[0], lurkPointChangeTime), dts[1..], lurkPointChangeTime)
  }

  /**
   * With non-negative frames and a positive change time, the timer stays in
   * [0, lurkPointChangeTime) however many frames pass.
   */
  lemma {:induction false} LurkTimerStaysBelow(timer: real, dts: seq<real>, lurkPointChangeTime: real)
    requires 0.0 <= timer < lurkPointChangeTime
    requires forall i :: 0 <= i < |dts| ==> dts[i] >= 0.0
    ensures 0.0 <= LurkTimers(timer, dts, lurkPointChangeTime) < lurkPointChangeTime
    decreases |dts|
  {
    if dts != [] {
      assert dts[0] >= 0.0;
      LurkTimerStaysBelow(LurkTimer(timer, dts[0], lurkPointChangeTime), dts[1..], lurkPointChangeTime);
    }
  }

  class EnemyNavMeshAI {
    var currentState: AIState
    var patrolPoints: seq<Vec3>
    var engagementDistance: real
    var lurkPointChangeTime: real
    var maxDetectionRadius: real
    var viewAngle: real
    var enemyAttack: EnemyAttack
    /** `playerTarget != null`: `Awake` found the player. */
    var hasPlayer: bool
    var currentPatrolIndex: int
    var timeSinceLastLurkChange: real
    /** The last patrol point handed to the navmesh agent. */
    var patrolDestination: Option<Vec3>

    /**
     * The patrol index points into the route, and a lurking enemy has a
     * player (so `Lurk`'s use of the player's position is safe).
     */
    predicate Valid()
      reads this
    {
      0 <= currentPatrolIndex &&
      (if |patrolPoints| == 0 then currentPatrolIndex == 0 else currentPatrolIndex < |patrolPoints|) &&
      (currentState == Lurking ==> hasPlayer)
    }

    /** The inspector settings, the attack component and the player lookup, which never change. */
    function Settings(): (seq<Vec3>, real, real, real, real, EnemyAttack, bool)
      reads this
    {
      (patrolPoints, engagementDistance, lurkPointChangeTime, maxDetectionRadius, viewAngle,
       enemyAttack, hasPlayer)
    }

    /**
     * The component as created and woken: Patrolling by its field
     * initialiser, and `Awake`'s lookup of the player gives `found`.
     */
    constructor (points: seq<Vec3>, engagement: real, changeTime: real, detectionRadius: real,
                 angle: real, attack: EnemyAttack, found: bool)
      ensures Valid()
      ensures Settings() == (points, engagement, changeTime, detectionRadius, angle, attack, found)
      ensures currentState == Patrolling && currentPatrolIndex == 0
      ensures timeSinceLastLurkChange == 0.0 && patrolDestination == None
    {
      currentState := Patrolling;
      patrolPoints := points;
      engagementDistance := engagement;
      lurkPointChangeTime := changeTime;
      maxDetectionRadius := detectionRadius;
      viewAngle := angle;
      enemyAttack := attack;
      hasPlayer := found;
      currentPatrolIndex := 0;
      timeSinceLastLurkChange := 0.0;
      patrolDestination := None;
    }

    /**
     * `SetState`: asking for the current state changes nothing. Entering
     * Patrolling heads for the current patrol point; entering Lurking
     * restarts the lurk timer.
     */
    method SetState(newState: AIState)
      requires Valid() && (newState == Lurking ==> hasPlayer)
      modifies this
      ensures Settings() == old(Settings())
      ensures Valid() && currentState == newState
      ensures old(currentState) == newState ==> unchanged(this)
      ensures old(currentState) != newState && newState == Lurking ==> timeSinceLastLurkChange == 0.0
      ensures old(currentState) == newState || newState != Lurking ==>
        timeSinceLastLurkChange == old(timeSinceLastLurkChange)
      ensures old(currentState) != newState && newState == Patrolling && |patrolPoints| > 0 ==>
        patrolDestination == Some(patrolPoints[currentPatrolIndex])
      ensures old(currentState) == newState || newState != Patrolling || |patrolPoints| == 0 ==>
        patrolDestination == old(patrolDestination)
      ensures currentPatrolIndex == old(currentPatrolIndex)
    {
      if currentState == newState {
        return;
      }
      currentState := newState;
      match newState
      case Patrolling =>
        if |patrolPoints| > 0 {
          patrolDestination := Some(patrolPoints[currentPatrolIndex]);
        }
      case Pursuing =>
      case Lurking =>
        timeSinceLastLurkChange := 0.0;
    }

    /**
     * `Start`: the patrol index goes back to the first point and the state
     * is set to Patrolling (a no-op for a fresh enemy, which is already
     * Patrolling).
     */
    method Start()
      requires Valid()
      modifies this
      ensures Settings() == old(Settings())
      ensures Valid() && currentState == Patrolling && currentPatrolIndex == 0
      ensures old(currentState) == Patrolling ==> patrolDestination == old(patrolDestination)
      ensures old(currentState) != Patrolling && |patrolPoints| > 0 ==> patrolDestination == Some(patrolPoints[0])
      ensures timeSinceLastLurkChange == old(timeSinceLastLurkChange)
    {
      currentPatrolIndex := 0;
      SetState(Patrolling);
    }

    /** `CheckConditions`, run on a timer: the enemy ends in the state `Transition` names. */
    method CheckConditions(distance: real, angle: real, blocked: bool)
      requires Valid()
      modifies this
      ensures Settings() == old(Settings())
      ensures Valid()
      ensures currentState == Transition(old(currentState), hasPlayer, distance,
        CanSeePlayer(hasPlayer, distance, maxDetectionRadius, angle, viewAngle, blocked),
        engagementDistance, maxDetectionRadius)
      ensures currentState == old(currentState) ==> unchanged(this)
      ensures currentState != old(currentState) && currentState == Lurking ==> timeSinceLastLurkChange == 0.0
      ensures currentPatrolIndex == old(currentPatrolIndex)
    {
      if !hasPlayer {
        return;
      }
      var canSee := CanSeePlayer(hasPlayer, distance, maxDetectionRadius, angle, viewAngle, blocked);
      if !canSee && distance > maxDetectionRadius {
        SetState(Patrolling);
        return;
      }
      match currentState
      case Patrolling =>
        if canSee {
          SetState(Pursuing);
        }
      case Pursuing =>
        if !canSee {
          SetState(Patrolling);
        } else if distance <= engagementDistance {
          SetState(Lurking);
        }
      case Lurking =>
        if distance > engagementDistance * 1.2 {
          SetState(Pursuing);
        }
    }

    /** `Patrol`: on arrival the index moves one step round the route and the agent heads there. */
    method Patrol(arrived: bool)
      requires Valid()
      modifies this
      ensures Settings() == old(Settings())
      ensures Valid()
      ensures currentPatrolIndex ==
        if |patrolPoints| > 0 && arrived then NextIndex(old(currentPatrolIndex), |patrolPoints|)
        else old(currentPatrolIndex)
      ensures |patrolPoints| > 0 && arrived ==> patrolDestination == Some(patrolPoints[currentPatrolIndex])
      ensures |patrolPoints| == 0 || !arrived ==> patrolDestination == old(patrolDestination)
      ensures currentState == old(currentState) && timeSinceLastLurkChange == old(timeSinceLastLurkChange)
    {
      if |patrolPoints| == 0 {
        return;
      }
      if arrived {
        currentPatrolIndex := NextIndex(currentPatrolIndex, |patrolPoints|);
        patrolDestination := Some(patrolPoints[currentPatrolIndex]);
      }
    }

    /**
     * `Lurk`: when the attack component is ready and the player is within
     * its range, the enemy attacks and does nothing else this frame.
     * Otherwise it evades: the lurk timer runs and restarts at
     * `lurkPointChangeTime`.
     */
    method Lurk(distance: real, dt: real)
      requires Valid() && currentState == Lurking
      modifies this, enemyAttack
      ensures Settings() == old(Settings())
      ensures Valid() && currentState == Lurking
      ensures old(enemyAttack.CanAttack()) && distance <= enemyAttack.attackRange ==>
        enemyAttack.attackTriggers == old(enemyAttack.attackTriggers) + 1 &&
        enemyAttack.timeSinceLastAttack == 0.0 &&
        timeSinceLastLurkChange == old(timeSinceLastLurkChange)
      ensures !(old(enemyAttack.CanAttack()) && distance <= enemyAttack.attackRange) ==>
        unchanged(enemyAttack) &&
        timeSinceLastLurkChange == LurkTimer(old(timeSinceLastLurkChange), dt, lurkPointChangeTime)
      ensures enemyAttack.attackRange == old(enemyAttack.attackRange)
      ensures enemyAttack.attackCooldown == old(enemyAttack.attackCooldown)
      ensures currentPatrolIndex == old(currentPatrolIndex) && patrolDestination == old(patrolDestination)
    {
      if enemyAttack.CanAttack() && distance <= enemyAttack.attackRange {
        enemyAttack.PerformAttack();
        return;
      }
      timeSinceLastLurkChange := timeSinceLastLurkChange + dt;
      if timeSinceLastLurkChange >= lurkPointChangeTime {
        timeSinceLastLurkChange := 0.0;
      }
    }

    /**
     * `Update`, once per frame: the current state's behaviour runs; the
     * state itself never changes here. Pursuing only steers the agent,
     * which is the engine's.
     */
    method Update(arrived: bool, distance: real, dt: real)
      requires Valid()
      modifies this, enemyAttack
      ensures Settings() == old(Settings())
      ensures Valid() && currentState == old(currentState)
      ensures old(currentState) != Lurking ==> unchanged(enemyAttack)
      ensures old(currentState) != Patrolling ==>
        currentPatrolIndex == old(currentPatrolIndex) && patrolDestination == old(patrolDestination)
      ensures old(currentState) == Patrolling ==>
        currentPatrolIndex ==
          (if |patrolPoints| > 0 && arrived then NextIndex(old(currentPatrolIndex), |patrolPoints|)
           else old(currentPatrolIndex)) &&
        patrolDestination ==
          (if |patrolPoints| > 0 && arrived then Some(patrolPoints[currentPatrolIndex]) else old(patrolDestination)) &&
        timeSinceLastLurkChange == old(timeSinceLastLurkChange)
      ensures old(currentState) == Pursuing ==> unchanged(this)
      ensures old(currentState) == Lurking && old(enemyAttack.CanAttack()) && distance <= enemyAttack.attackRange ==>
        enemyAttack.attackTriggers == old(enemyAttack.attackTriggers) + 1 &&
        enemyAttack.timeSinceLastAttack == 0.0 &&
        timeSinceLastLurkChange == old(timeSinceLastLurkChange)
      ensures old(currentState) == Lurking && !(old(enemyAttack.CanAttack()) && distance <= enemyAttack.attackRange) ==>
        unchanged(enemyAttack) &&
        timeSinceLastLurkChange == LurkTimer(old(timeSinceLastLurkChange), dt, lurkPointChangeTime)
    {
      match currentState
      case Patrolling => Patrol(arrived);
      case Pursuing =>
      case Lurking => Lurk(distance, dt);
    }
  }
}
