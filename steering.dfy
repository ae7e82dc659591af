/** Visual steering of the front wheels. Both the vehicle (when the turn input
    changes) and the animator (every tick) keep the same five numbers: the
    current wheel angle, the angle it is heading for, the angle it started
    from, and a timer running against the duration of the change. The wheel
    angle moves linearly from the previous angle to the target over that
    duration; a full sweep from the maximum angle back to neutral takes
    `neutralDuration` seconds. */
module Steering {
  import opened Numeric

  datatype WheelEase = WheelEase(direction: real, target: real, previous: real, timer: real, duration: real)
  {
    /** Neither clock ever goes negative. */
    predicate Valid()
    {
      timer >= 0.0 && duration >= 0.0
    }
  }

  /** The wheel angle `x` lies between `a` and `b` (in either order). */
  predicate Between(x: real, a: real, b: real)
  {
    (a <= x <= b) || (b <= x <= a)
  }

  /** How long the wheels take to sweep from `previous` to `target`. */
  function ChangeDuration(target: real, previous: real, neutralDuration: real, maxAngle: int): (d: real)
    requires maxAngle != 0
    ensures d >= 0.0
    ensures d == 0.0 <==> (neutralDuration == 0.0 || target == previous)
  {
    var raw := neutralDuration * (target - previous) / maxAngle as real;
    assert raw == 0.0 <==> (neutralDuration == 0.0 || target - previous == 0.0);
    Abs(raw)
  }

  /** A new target angle restarts the change from the current angle; the
      same target leaves everything as it is. */
  function Retarget(e: WheelEase, newTarget: real, neutralDuration: real, maxAngle: int): (r: WheelEase)
    requires maxAngle != 0
    ensures newTarget == e.target ==> r == e
    ensures newTarget != e.target ==>
              && r.target == newTarget
              && r.previous == e.direction
              && r.direction == e.direction
              && r.timer == 0.0
              && r.duration == ChangeDuration(newTarget, e.direction, neutralDuration, maxAngle)
    ensures e.Valid() ==> r.Valid()
  {
    if newTarget != e.target then
      WheelEase(e.direction, newTarget, e.direction, 0.0,
                ChangeDuration(newTarget, e.direction, neutralDuration, maxAngle))
    else e
  }

  /** One tick of linear easing: while the timer is short of the duration it
      advances and the angle is interpolated; otherwise the angle snaps onto
      the target and both clocks return to zero. */
  function Advance(e: WheelEase, dt: real): (r: WheelEase)
    requires e.Valid()
    ensures r.target == e.target && r.previous == e.previous
    ensures e.timer >= e.duration ==> r.direction == e.target && r.timer == 0.0 && r.duration == 0.0
    ensures e.timer < e.duration ==>
              && r.timer == e.timer + dt && r.duration == e.duration
              && r.direction == EasedAngle(e.previous, e.target, e.timer + dt, e.duration)
    ensures dt >= 0.0 ==> r.Valid()
    ensures e.timer < e.duration && 0.0 <= dt && e.timer + dt <= e.duration ==>
              Between(r.direction, e.previous, e.target)
  {
    if e.timer < e.duration then
      var t := e.timer + dt;
      var d := EasedAngle(e.previous, e.target, t, e.duration);
      assert 0.0 <= t <= e.duration ==> Between(d, e.previous, e.target) by {
        if 0.0 <= t <= e.duration {
          EasedBetween(e.previous, e.target, t, e.duration);
        }
      }
      e.(timer := t, direction := d)
    else
      e.(duration := 0.0, timer := 0.0, direction := e.target)
  }

  /** Linear easing: the angle `timer` seconds into a change of `duration`
      seconds from `previous` to `target`. */
  function EasedAngle(previous: real, target: real, timer: real, duration: real): real
    requires duration != 0.0
  {
    (target - previous) * timer / duration + previous
  }

  /** Within the change's duration the eased angle lies between its ends. */
  lemma EasedBetween(previous: real, target: real, timer: real, duration: real)
    requires 0.0 <= timer <= duration && duration != 0.0
    ensures Between(EasedAngle(previous, target, timer, duration), previous, target)
  {
    DivUnit(timer, duration);
    FractionBetween(previous, target, timer / duration);
    DivScale(timer, duration, target - previous);
    assert timer * (target - previous) == (target - previous) * timer;
    assert (target - previous) * (timer / duration) + previous == EasedAngle(previous, target, timer, duration);
  }

  /** The interpolation is not clamped: a tick that carries the timer past
      the duration puts the wheels beyond their target, and only the
      following tick snaps them back onto it. */
  lemma AdvanceOvershoots(e: WheelEase, dt: real)
    requires e.Valid() && e.timer < e.duration < e.timer + dt && e.previous != e.target
    ensures !Between(Advance(e, dt).direction, e.previous, e.target)
    ensures Advance(Advance(e, dt), dt).direction == e.target
  {
    var t := e.timer + dt;
    var d := e.target - e.previous;
    DivAboveUnit(t, e.duration);
    var f := t / e.duration;
    var excess := f - 1.0;
    var lead := d * excess;
    if d > 0.0 {
      PosProduct(d, excess);
    } else {
      PosProduct(-d, excess);
      assert (-d) * excess == -lead;
    }
    assert f * d == d + lead;
    DivScale(t, e.duration, d);
    assert d * t == t * d;
    assert Advance(e, dt).direction == e.target + lead;
  }

  /** Half a second to turn from 0 to 35 degrees, 0.3 s in at 21 degrees:
      a further 0.3 s tick leaves the wheels at 42 degrees. */
  lemma AdvanceOvershootExample()
    ensures Advance(WheelEase(21.0, 35.0, 0.0, 0.3, 0.5), 0.3).direction == 42.0
  {
    assert EasedAngle(0.0, 35.0, 0.6, 0.5) == 42.0;
  }

  lemma FractionBetween(a: real, b: real, f: real)
    requires 0.0 <= f <= 1.0
    ensures Between((b - a) * f + a, a, b)
  {
    var d := b - a;
    if a <= b {
      NonNegProduct(d, f);
      NonNegProduct(d, 1.0 - f);
      assert d * f + d * (1.0 - f) == d;
    } else {
      NonNegProduct(-d, f);
      NonNegProduct(-d, 1.0 - f);
      assert d * f + d * (1.0 - f) == d;
    }
  }

  /** `n` consecutive ticks of `dt` seconds. */
  function AdvanceTicks(e: WheelEase, dt: real, n: nat): (r: WheelEase)
    requires e.Valid() && dt >= 0.0
    ensures r.Valid() && r.target == e.target
    decreases n
  {
    if n == 0 then e else AdvanceTicks(Advance(e, dt), dt, n - 1)
  }

  /** Once the wheels sit on their target with the clocks stopped, further
      ticks keep them there. */
  lemma {:induction false} SettledStays(e: WheelEase, dt: real, n: nat)
    requires dt >= 0.0 && e.timer == 0.0 && e.duration == 0.0 && e.direction == e.target
    ensures AdvanceTicks(e, dt, n) == e
  {
    if n > 0 {
      assert Advance(e, dt) == e;
      SettledStays(e, dt, n - 1);
    }
  }

  /** The easing converges: with ticks of `dt > 0`, once `n - 1` ticks cover
      the time still left on the change, the wheels are exactly on target. */
  lemma {:induction false} EaseReachesTarget(e: WheelEase, dt: real, n: nat)
    requires e.Valid() && dt > 0.0 && n >= 1
    requires (n - 1) as real * dt >= e.duration - e.timer
    ensures AdvanceTicks(e, dt, n).direction == e.target
    decreases n
  {
    var e' := Advance(e, dt);
    if e.timer >= e.duration {
      SettledStays(e', dt, n - 1);
    } else {
      assert (n - 1) as real * dt > 0.0;
      assert n >= 2;
      assert (n - 2) as real * dt == (n - 1) as real * dt - dt;
      EaseReachesTarget(e', dt, n - 1);
    }
  }
}
