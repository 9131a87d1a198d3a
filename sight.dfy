/**
 * `CanSeePlayer`, shared by the three enemy AIs: the player is seen when
 * there is a player, it is within the detection radius, its direction lies
 * within half the view angle of the enemy's facing, and no obstacle blocks
 * the ray. The angle and the ray test are engine results, taken as inputs.
 */
module Sight {

  function CanSeePlayer(hasPlayer: bool, distance: real, radius: real,
                        angle: real, viewAngle: real, blocked: bool): (seen: bool)
    ensures seen ==> hasPlayer && distance <= radius && angle <= viewAngle / 2.0 && !blocked
    ensures hasPlayer && distance <= radius && angle <= viewAngle / 2.0 && !blocked ==> seen
  {
    if !hasPlayer then false
    else if distance > radius then false
    else if angle > viewAngle / 2.0 then false
    else !blocked
  }
}
