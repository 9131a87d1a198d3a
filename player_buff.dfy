/**
 * `PlayerBuffManager`: active buffs, each with a type and a remaining time,
 * tint the player's outline. Every frame the timers run down and expired
 * buffs are removed; the outline then moves towards the mean colour of the
 * active buffs, or back to the base colour when there are none. Frame time
 * is a parameter; `Color.Lerp` towards the target is not modelled.
 */
module PlayerBuff {

  /** `ItemPickup.ItemType`. */
  datatype ItemType = Health | Speed | Damage

  /** An `ActiveBuff`. */
  datatype Buff = Buff(kind: ItemType, timeRemaining: real)

  datatype Color = Color(r: real, g: real, b: real, a: real)

  /** The inspector colours: the base outline and one per buff type. */
  datatype Palette = Palette(baseColor: Color, healthColor: Color, speedColor: Color, damageColor: Color)

  /** `GetColorForType`. The enum has no other value, so the `default` arm is unreachable. */
  function ColorForType(p: Palette, kind: ItemType): Color
  {
    match kind
    case Health => p.healthColor
    case Speed => p.speedColor
    case Damage => p.damageColor
  }

  /** Channel-wise sum of the colours of the given buffs. */
  function SumColors(p: Palette, buffs: seq<Buff>): Color
    decreases |buffs|
  {
    if buffs == [] then Color(0.0, 0.0, 0.0, 0.0)
    else
      var s := SumColors(p, buffs[..|buffs| - 1]);
      var c := ColorForType(p, buffs[|buffs| - 1].kind);
      Color(s.r + c.r, s.g + c.g, s.b + c.b, s.a + c.a)
  }

  function Scale(c: Color, k: real): Color
  {
    Color(c.r * k, c.g * k, c.b * k, c.a * k)
  }

  /** The colour the outline moves towards: the base colour, or the mean colour of the buffs. */
  function Target(p: Palette, buffs: seq<Buff>): Color
  {
    if buffs == [] then p.baseColor else Scale(SumColors(p, buffs), 1.0 / (|buffs| as real))
  }

  /** Buffs that all have the same type sum to that many copies of its colour. */
  lemma {:induction false} SumOfOneKind(p: Palette, buffs: seq<Buff>, kind: ItemType)
    requires forall i :: 0 <= i < |buffs| ==> buffs[i].kind == kind
    ensures SumColors(p, buffs) == Scale(ColorForType(p, kind), |buffs| as real)
    decreases |buffs|
  {
    if buffs != [] {
      SumOfOneKind(p, buffs[..|buffs| - 1], kind);
    }
  }

  /** With buffs of a single type active, the outline heads for exactly that type's colour. */
  lemma TargetOfOneKind(p: Palette, buffs: seq<Buff>, kind: ItemType)
    requires buffs != [] && forall i :: 0 <= i < |buffs| ==> buffs[i].kind == kind
    ensures Target(p, buffs) == ColorForType(p, kind)
  {
    SumOfOneKind(p, buffs, kind);
    var n := |buffs| as real;
    var c := ColorForType(p, kind);
    assert c.r * n * (1.0 / n) == c.r;
    assert c.g * n * (1.0 / n) == c.g;
    assert c.b * n * (1.0 / n) == c.b;
    assert c.a * n * (1.0 / n) == c.a;
  }

  /** The buffs after `UpdateBuffTimers`: each timer lowered by `dt`, those at or below zero dropped, order kept. */
  function Expire(buffs: seq<Buff>, dt: real): seq<Buff>
  {
    if buffs == [] then []
    else
      var t := buffs[0].timeRemaining - dt;
      (if t <= 0.0 then [] else [Buff(buffs[0].kind, t)]) + Expire(buffs[1..], dt)
  }

  /**
   * A buff survives a frame exactly when its lowered timer is still positive,
   * so every buff left has time remaining.
   */
  lemma {:induction false} ExpireKeeps(buffs: seq<Buff>, dt: real, b: Buff)
    ensures b in Expire(buffs, dt) <==> b.timeRemaining > 0.0 && Buff(b.kind, b.timeRemaining + dt) in buffs
  {
    if buffs != [] {
      ExpireKeeps(buffs[1..], dt, b);
      assert buffs == [buffs[0]] + buffs[1..];
    }
  }

  /** Expiring keeps the relative order: it works on each part of the list separately. */
  lemma {:induction false} ExpireSplits(xs: seq<Buff>, ys: seq<Buff>, dt: real)
    ensures Expire(xs + ys, dt) == Expire(xs, dt) + Expire(ys, dt)
  {
    if xs == [] {
      assert xs + ys == ys;
    } else {
      assert (xs + ys)[0] == xs[0];
      assert (xs + ys)[1..] == xs[1..] + ys;
      ExpireSplits(xs[1..], ys, dt);
    }
  }

  /** Two frames of `d1` and `d2` (frame times are never negative) expire the same buffs as one of `d1 + d2`. */
  lemma {:induction false} ExpireTwice(buffs: seq<Buff>, d1: real, d2: real)
    requires d1 >= 0.0 && d2 >= 0.0
    ensures Expire(Expire(buffs, d1), d2) == Expire(buffs, d1 + d2)
  {
    if buffs != [] {
      var t := buffs[0].timeRemaining - d1;
      ExpireSplits(if t <= 0.0 then [] else [Buff(buffs[0].kind, t)], Expire(buffs[1..], d1), d2);
      ExpireTwice(buffs[1..], d1, d2);
    }
  }

  class PlayerBuffManager {
    var palette: Palette
    var flashDuration: real
    var activeBuffs: seq<Buff>

    /** `Awake`: the base colour is the outline's colour at start. */
    constructor (outlineColor: Color, health: Color, speed: Color, damage: Color, flash: real)
      ensures palette == Palette(outlineColor, health, speed, damage)
      ensures flashDuration == flash && activeBuffs == []
    {
      palette := Palette(outlineColor, health, speed, damage);
      flashDuration := flash;
      activeBuffs := [];
    }

    /** `AddBuff`: a non-positive duration still shows a flash of `flashDuration`. */
    method AddBuff(kind: ItemType, duration: real)
      modifies this
      ensures activeBuffs == old(activeBuffs) + [Buff(kind, if duration > 0.0 then duration else flashDuration)]
      ensures palette == old(palette) && flashDuration == old(flashDuration)
    {
      var visualDuration := if duration > 0.0 then duration else flashDuration;
      activeBuffs := activeBuffs + [Buff(kind, visualDuration)];
    }

    /** `UpdateBuffTimers`: walks the list backwards, lowering each timer and removing expired buffs in place. */
    method UpdateBuffTimers(dt: real)
      modifies this
      ensures activeBuffs == Expire(old(activeBuffs), dt)
      ensures palette == old(palette) && flashDuration == old(flashDuration)
    {
      ghost var original := activeBuffs;
      var i := |activeBuffs|;
      while i > 0
        invariant 0 <= i <= |original|
        invariant activeBuffs == original[..i] + Expire(original[i..], dt)
        invariant palette == old(palette) && flashDuration == old(flashDuration)
      {
        i := i - 1;
        assert original[i..] == [original[i]] + original[i + 1..];
        assert original[..i + 1] == original[..i] + [original[i]];
        var t := activeBuffs[i].timeRemaining - dt;
        if t <= 0.0 {
          activeBuffs := activeBuffs[..i] + activeBuffs[i + 1..];
        } else {
          activeBuffs := activeBuffs[i := Buff(activeBuffs[i].kind, t)];
        }
      }
    }

    /** The target colour `UpdateOutlineColor` computes: channel sums over the buffs, divided by their count. */
    method TargetColor() returns (c: Color)
      ensures c == Target(palette, activeBuffs)
    {
      if |activeBuffs| == 0 {
        return palette.baseColor;
      }
      var r, g, b, a := 0.0, 0.0, 0.0, 0.0;
      var i := 0;
      while i < |activeBuffs|
        invariant 0 <= i <= |activeBuffs|
        invariant Color(r, g, b, a) == SumColors(palette, activeBuffs[..i])
      {
        assert activeBuffs[..i + 1][..i] == activeBuffs[..i];
        var col := ColorForType(palette, activeBuffs[i].kind);
        r, g, b, a := r + col.r, g + col.g, b + col.b, a + col.a;
        i := i + 1;
      }
      assert activeBuffs[..i] == activeBuffs;
      var count := |activeBuffs| as real;
      c := Color(r / count, g / count, b / count, a / count);
    }
  }
}
