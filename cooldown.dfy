/**
 * The attack cooldown kept by both `EnemyAttack` components: a timer of the
 * seconds since the last attack, which `Update` advances by the frame time
 * only while it is still below the cooldown, and which `CanAttack` compares
 * with the cooldown.
 */
module Cooldown {

  /** `CanAttack`: the cooldown has run out. */
  predicate Ready(timer: real, cooldown: real)
  {
    timer >= cooldown
  }

  /** The timer after one `Update` frame of `dt` seconds. */
  function Tick(timer: real, cooldown: real, dt: real): real
  {
    if timer < cooldown then timer + dt else timer
  }

  /** The timer after a run of frames, in order. */
  function Ticks(timer: real, cooldown: real, dts: seq<real>): real
    decreases |dts|
  {
    if dts == [] then timer else Ticks(Tick(timer, cooldown, dts[0]), cooldown, dts[1..])
  }

  /** Total time of a run of frames. */
  function Sum(dts: seq<real>): real
  {
    if dts == [] then 0.0 else dts[0] + Sum(dts[1..])
  }

  /** Frame times are never negative. */
  predicate NonNegative(dts: seq<real>)
  {
    forall i :: 0 <= i < |dts| ==> dts[i] >= 0.0
  }

  /** Once the timer has reached the cooldown, frames leave it alone. */
  lemma {:induction false} ReadyStays(timer: real, cooldown: real, dts: seq<real>)
    requires Ready(timer, cooldown)
    ensures Ticks(timer, cooldown, dts) == timer
    decreases |dts|
  {
    if dts != [] {
      ReadyStays(timer, cooldown, dts[1..]);
    }
  }

  /**
   * The timer is ready after a run of frames exactly when the starting value
   * plus the frames' total time reaches the cooldown.
   */
  lemma {:induction false} ReadyIff(timer: real, cooldown: real, dts: seq<real>)
    requires NonNegative(dts)
    ensures Ready(Ticks(timer, cooldown, dts), cooldown) <==> timer + Sum(dts) >= cooldown
    decreases |dts|
  {
    if dts == [] {
    } else if Ready(timer, cooldown) {
      ReadyStays(timer, cooldown, dts);
      SumNonNegative(dts);
    } else {
      assert NonNegative(dts[1..]) by {
        forall i | 0 <= i < |dts[1..]| ensures dts[1..][i] >= 0.0 {
          assert dts[1..][i] == dts[i + 1];
        }
      }
      ReadyIff(timer + dts[0], cooldown, dts[1..]);
    }
  }

  lemma {:induction false} SumNonNegative(dts: seq<real>)
    requires NonNegative(dts)
    ensures Sum(dts) >= 0.0
  {
    if dts != [] {
      assert NonNegative(dts[1..]) by {
        forall i | 0 <= i < |dts[1..]| ensures dts[1..][i] >= 0.0 {
          assert dts[1..][i] == dts[i + 1];
        }
      }
      SumNonNegative(dts[1..]);
    }
  }

  /**
   * The timer never runs away: frames of at most `maxDt` seconds keep it at
   * most one frame past the cooldown.
   */
  lemma {:induction false} TimerBounded(timer: real, cooldown: real, maxDt: real, dts: seq<real>)
    requires forall i :: 0 <= i < |dts| ==> dts[i] <= maxDt
    requires timer <= cooldown + maxDt
    ensures Ticks(timer, cooldown, dts) <= cooldown + maxDt
    decreases |dts|
  {
    if dts != [] {
      assert dts[0] <= maxDt;
      TimerBounded(Tick(timer, cooldown, dts[0]), cooldown, maxDt, dts[1..]);
    }
  }
}
