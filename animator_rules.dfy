/** The per-tick rules of the animator component, as pure functions of what
    it reads from its vehicle and of the values it remembers: the wheel spin,
    the drift indicator, the tilt re-arming and restart, and the roll. The
    `Animator` class (animator.dfy) updates its fields step by step and is
    proved against these functions. The wheel steering easing is shared with
    the vehicle and lives in `Steering`. */
module AnimatorRules {
  import opened Numeric
  import opened VehicleRules

  /** The component's editable properties. `scaleTiltWithSpeed` is declared
      as a float and tested for being non-zero. */
  datatype AnimatorSettings = AnimatorSettings(
    wheelsMaxDirectionAngle: int,           // degrees
    wheelsRotationToNeutralDuration: real,  // seconds
    accelerationTiltMaxAngle: real,
    brakingTiltMaxAngle: real,
    accelerationTiltDamping: real,
    brakingTiltDamping: real,
    accelerationTiltOscSpeed: real,
    brakingTiltOscSpeed: real,
    maxRollAngle: real,
    rollScale: real,
    scaleTiltWithSpeed: real)
  {
    /** The wheel change duration divides by the max direction angle. */
    predicate Valid()
    {
      wheelsMaxDirectionAngle != 0
    }
  }

  /** The values the component is built with. */
  function AnimatorDefaults(): (a: AnimatorSettings)
    ensures a.Valid()
    ensures a.brakingTiltMaxAngle < 0.0 < a.accelerationTiltMaxAngle
    ensures a.maxRollAngle >= 0.0 && a.rollScale >= 0.0 && a.scaleTiltWithSpeed == 0.0
  {
    AnimatorSettings(
      wheelsMaxDirectionAngle := 35, wheelsRotationToNeutralDuration := 0.5,
      accelerationTiltMaxAngle := 3.0, brakingTiltMaxAngle := -3.0,
      accelerationTiltDamping := 3.0, brakingTiltDamping := 2.0,
      accelerationTiltOscSpeed := 10.0, brakingTiltOscSpeed := 10.0,
      maxRollAngle := 10.0, rollScale := 3.0, scaleTiltWithSpeed := 0.0)
  }

  /** The values handed to the animation blueprint (the anim instance's
      fields). The two wheel angles are integers there, so the float values
      written into them are truncated. */
  datatype AnimPose = AnimPose(
    wheelRotation: int,
    wheelDirection: int,
    wheelsOffsets: seq<real>,
    driftDirection: int,
    tiltAngle: real,
    rollAngle: real)

  // ---------------------------------------------------------------- wheel spin

  /** The engine's value of pi. */
  const Pi: real := 3.1415926535897932

  /** The wheel perimeter in metres, from its radius in centimetres. */
  function WheelPerimeter(radius: real): (p: real)
    ensures radius > 0.0 ==> p > 0.0
    ensures radius == 0.0 <==> p == 0.0
  {
    2.0 * Pi * radius / 100.0
  }

  /** The distance travelled this frame in metres, from the speed in km/h
      (the product `Speed * 1000` is an integer product). */
  function FrameDistance(speed: int, dt: real): (d: real)
    ensures speed >= 0 && dt >= 0.0 ==> d >= 0.0
  {
    (speed * 1000) as real / 3600.0 * dt
  }

  /** The accumulated spin angle: reset to 0 at (truncated) speed 0, else
      advanced by the distance travelled over the perimeter, in degrees. */
  function SpinAngle(angle: real, speed: int, dt: real, radius: real): (a: real)
    requires speed != 0 ==> radius != 0.0
    ensures speed == 0 ==> a == 0.0
    ensures speed > 0 && dt >= 0.0 && radius > 0.0 ==> a >= angle
  {
    if IntAbs(speed) > 0 then
      var d := FrameDistance(speed, dt);
      var p := WheelPerimeter(radius);
      assert speed > 0 && dt >= 0.0 && radius > 0.0 ==> d / p >= 0.0 by {
        if speed > 0 && dt >= 0.0 && radius > 0.0 {
          DivNonNegative(d, p);
        }
      }
      angle + d / p * 360.0
    else 0.0
  }

  /** The spin handed to the blueprint: the angle truncated to an integer,
      reduced modulo 360 with the sign of the angle, and negated while the
      speed is positive. */
  function SpinOutput(angle: real, speed: int): (r: int)
    ensures -360 < r < 360
    ensures angle == 0.0 ==> r == 0
    ensures speed > 0 && angle >= 0.0 ==> r <= 0
    ensures speed <= 0 && angle >= 0.0 ==> r >= 0
    ensures ((if speed > 0 then -r else r) - Trunc(angle)) % 360 == 0
  {
    (if speed > 0 then -1 else 1) * Rem360(Trunc(angle))
  }

  /** `n` frames at a constant speed and frame time. */
  function SpinTicks(angle: real, speed: int, dt: real, radius: real, n: nat): real
    requires speed != 0 ==> radius != 0.0
    decreases n
  {
    if n == 0 then angle else SpinTicks(SpinAngle(angle, speed, dt, radius), speed, dt, radius, n - 1)
  }

  /** At a constant non-zero speed the spin angle grows by the same step
      every frame, so the wheel turns at a constant rate. */
  lemma {:induction false} SpinGrowsLinearly(angle: real, speed: int, dt: real, radius: real, n: nat)
    requires speed != 0 && radius != 0.0
    ensures SpinTicks(angle, speed, dt, radius, n)
            == angle + n as real * (FrameDistance(speed, dt) / WheelPerimeter(radius) * 360.0)
    decreases n
  {
    if n > 0 {
      var step := FrameDistance(speed, dt) / WheelPerimeter(radius) * 360.0;
      SpinGrowsLinearly(angle + step, speed, dt, radius, n - 1);
      assert angle + step + (n - 1) as real * step == angle + n as real * step;
    }
  }

  // ---------------------------------------------------------------- drift

  /** The drift direction shown by the blueprint: 0 when not drifting, else
      1 for a drift to the right and -1 otherwise. */
  function DriftIndicator(drifting: bool, driftDirection: int): (d: int)
    ensures -1 <= d <= 1
    ensures d == 0 <==> !drifting
    ensures drifting ==> (d == 1 <==> driftDirection > 0)
  {
    if drifting then (if driftDirection > 0 then 1 else -1) else 0
  }

  // ---------------------------------------------------------------- tilt

  /** A pedal pressed since the last tick while on the ground. */
  predicate Pressed(now: bool, before: bool, onGround: bool)
  {
    now && now != before && onGround
  }

  /** The pending tilt reset after this tick's edge detection. */
  predicate Rearmed(pending: bool, accelerating: bool, wasAccelerating: bool,
                    braking: bool, wasBraking: bool, onGround: bool)
  {
    pending || Pressed(accelerating, wasAccelerating, onGround) || Pressed(braking, wasBraking, onGround)
  }

  /** A tilt reset is armed only by pressing a pedal on the ground: holding
      or releasing pedals, or pressing them in the air, leaves it as it was. */
  lemma RearmOnlyOnPress(pending: bool, accelerating: bool, wasAccelerating: bool,
                         braking: bool, wasBraking: bool, onGround: bool)
    ensures !pending ==>
              (Rearmed(pending, accelerating, wasAccelerating, braking, wasBraking, onGround)
               <==> onGround && ((accelerating && !wasAccelerating) || (braking && !wasBraking)))
    ensures (accelerating == wasAccelerating && braking == wasBraking) || !onGround ==>
              (Rearmed(pending, accelerating, wasAccelerating, braking, wasBraking, onGround) <==> pending)
  {
  }

  /** A pending reset restarts the tilt only once the blueprint's tilt is
      back near level. */
  predicate TiltRestarts(pending: bool, tiltAngle: real)
  {
    pending && Abs(tiltAngle) < 0.1
  }

  /** `1 - |Speed| / maxSpeed`, a float division. */
  function SpeedDiffRatio(speed: int, maxSpeed: int): (r: real)
    requires maxSpeed != 0
    ensures speed == 0 ==> r == 1.0
    ensures 0 < maxSpeed && IntAbs(speed) <= maxSpeed ==> 0.0 <= r <= 1.0
  {
    var q := Abs(speed as real) / maxSpeed as real;
    assert 0 < maxSpeed && IntAbs(speed) <= maxSpeed ==> 0.0 <= q <= 1.0 by {
      if 0 < maxSpeed && IntAbs(speed) <= maxSpeed {
        DivUnit(Abs(speed as real), maxSpeed as real);
      }
    }
    1.0 - q
  }

  /** The oscillation speed of a restarted tilt: the pedal's setting scaled
      by the speed ratio and held within [5, 10]. */
  function OscSpeed(accelerating: bool, ratio: real, a: AnimatorSettings): (w: real)
    ensures 5.0 <= w <= 10.0
    ensures var base := if accelerating then a.accelerationTiltOscSpeed else a.brakingTiltOscSpeed;
            5.0 <= base * ratio <= 10.0 ==> w == base * ratio
  {
    Clamp((if accelerating then a.accelerationTiltOscSpeed else a.brakingTiltOscSpeed) * ratio, 5.0, 10.0)
  }

  /** The pedal pressure the restarted tilt follows: the accelerator's, else
      the brake's, else the one remembered from before. */
  function AxisScale(previous: real, accelerating: bool, braking: bool,
                     accelerationScale: real, brakingScale: real): (k: real)
    ensures accelerating ==> k == accelerationScale
    ensures !accelerating && braking ==> k == brakingScale
    ensures !accelerating && !braking ==> k == previous
  {
    if accelerating then accelerationScale else if braking then brakingScale else previous
  }

  /** The tilt handed to the blueprint: the amplitude times the damped sine
      `wave(damping, oscSpeed, t)`, scaled by the speed ratio when the
      setting asks for it. */
  function TiltValue(amplitude: real, waveValue: real, scaleTiltWithSpeed: real, ratio: real): (t: real)
    ensures amplitude == 0.0 || waveValue == 0.0 ==> t == 0.0
    ensures scaleTiltWithSpeed != 0.0 && ratio == 0.0 ==> t == 0.0
  {
    if scaleTiltWithSpeed != 0.0 then amplitude * waveValue * ratio else amplitude * waveValue
  }

  /** The tilt never exceeds its amplitude: with a wave of magnitude at
      most 1 (a damped sine with non-negative damping) and a speed ratio in
      [0, 1]. */
  lemma TiltBounded(amplitude: real, waveValue: real, scaleTiltWithSpeed: real, ratio: real)
    requires Abs(waveValue) <= 1.0 && 0.0 <= ratio <= 1.0
    ensures Abs(TiltValue(amplitude, waveValue, scaleTiltWithSpeed, ratio)) <= Abs(amplitude)
  {
    if scaleTiltWithSpeed != 0.0 {
      ShrinksTwice(amplitude, waveValue, ratio);
    } else {
      Shrinks(amplitude, waveValue);
    }
  }

  lemma ShrinksTwice(x: real, k1: real, k2: real)
    requires Abs(k1) <= 1.0 && Abs(k2) <= 1.0
    ensures Abs(x * k1 * k2) <= Abs(x)
  {
    var y := x * k1;
    Shrinks(x, k1);
    var z := y * k2;
    Shrinks(y, k2);
    assert Abs(z) <= Abs(x);
    assert x * k1 * k2 == z;
  }

  /** Multiplying by a factor of magnitude at most 1 never grows a value. */
  lemma Shrinks(x: real, k: real)
    requires Abs(k) <= 1.0
    ensures Abs(x * k) <= Abs(x)
  {
    if x >= 0.0 && k >= 0.0 {
      NonNegProduct(x, k);
      NonNegProduct(x, 1.0 - k);
      assert x * k + x * (1.0 - k) == x;
    } else if x >= 0.0 {
      NonNegProduct(x, -k);
      NonNegProduct(x, 1.0 + k);
      assert x * (-k) + x * (1.0 + k) == x;
      assert x * (-k) == -(x * k);
    } else if k >= 0.0 {
      NonNegProduct(-x, k);
      NonNegProduct(-x, 1.0 - k);
      assert (-x) * k + (-x) * (1.0 - k) == -x;
      assert (-x) * k == -(x * k);
    } else {
      NonNegProduct(-x, -k);
      NonNegProduct(-x, 1.0 + k);
      assert (-x) * (-k) + (-x) * (1.0 + k) == -x;
      assert (-x) * (-k) == x * k;
    }
  }

  // ---------------------------------------------------------------- roll

  /** The wheel slip: the lateral speed in km/h over max speed, held
      within [-1, 1]; for a positive max speed it has the sign of the
      lateral velocity. */
  function Slip(lateral: real, maxSpeed: int): (r: real)
    requires maxSpeed != 0
    ensures -1.0 <= r <= 1.0
    ensures maxSpeed > 0 && lateral >= 0.0 ==> r >= 0.0
    ensures maxSpeed > 0 && lateral <= 0.0 ==> r <= 0.0
  {
    SlipSign(lateral, maxSpeed);
    Clamp(SpeedToKmH(lateral) / maxSpeed as real, -1.0, 1.0)
  }

  lemma SlipSign(lateral: real, maxSpeed: int)
    requires maxSpeed != 0
    ensures maxSpeed > 0 && lateral >= 0.0 ==> SpeedToKmH(lateral) / maxSpeed as real >= 0.0
    ensures maxSpeed > 0 && lateral <= 0.0 ==> SpeedToKmH(lateral) / maxSpeed as real <= 0.0
  {
    if maxSpeed > 0 {
      if lateral >= 0.0 {
        DivNonNegative(SpeedToKmH(lateral), maxSpeed as real);
      } else {
        DivNegation(SpeedToKmH(lateral), maxSpeed as real);
        DivNonNegative(-SpeedToKmH(lateral), maxSpeed as real);
      }
    }
  }

  /** The roll handed to the blueprint: the slip times the max roll angle,
      clamped to the max roll angle, times the roll scale. */
  function Roll(lateral: real, maxSpeed: int, a: AnimatorSettings): (r: real)
    requires maxSpeed != 0
    ensures a.maxRollAngle >= 0.0 && a.rollScale >= 0.0 ==> Abs(r) <= a.maxRollAngle * a.rollScale
  {
    RollScaled(Clamp(a.maxRollAngle * Slip(lateral, maxSpeed), -a.maxRollAngle, a.maxRollAngle), a.maxRollAngle, a.rollScale);
    Clamp(a.maxRollAngle * Slip(lateral, maxSpeed), -a.maxRollAngle, a.maxRollAngle) * a.rollScale
  }

  lemma RollScaled(roll: real, maxRoll: real, scale: real)
    requires -maxRoll <= roll <= maxRoll || maxRoll < 0.0
    ensures maxRoll >= 0.0 && scale >= 0.0 ==> Abs(roll * scale) <= maxRoll * scale
  {
    if maxRoll >= 0.0 && scale >= 0.0 {
      NonNegProduct(maxRoll - roll, scale);
      NonNegProduct(maxRoll + roll, scale);
    }
  }

  /** For a non-negative max roll angle the outer clamp never bites. */
  lemma RollUnclamped(lateral: real, maxSpeed: int, a: AnimatorSettings)
    requires maxSpeed != 0 && a.maxRollAngle >= 0.0
    ensures Roll(lateral, maxSpeed, a) == a.maxRollAngle * Slip(lateral, maxSpeed) * a.rollScale
  {
    var m, slip := a.maxRollAngle, Slip(lateral, maxSpeed);
    Within(m, slip);
    assert Clamp(m * slip, -m, m) == m * slip;
  }

  /** A non-negative bound times a factor in [-1, 1] stays within the bound. */
  lemma Within(m: real, k: real)
    requires 0.0 <= m && -1.0 <= k <= 1.0
    ensures -m <= m * k <= m
  {
    NonNegProduct(m, 1.0 - k);
    NonNegProduct(m, 1.0 + k);
  }

  /** The roll leans with the slide: it has the sign of the lateral
      velocity, for a positive max speed, max roll angle and roll scale. */
  lemma RollFollowsSlip(lateral: real, maxSpeed: int, a: AnimatorSettings)
    requires maxSpeed > 0 && a.maxRollAngle >= 0.0 && a.rollScale >= 0.0
    ensures lateral >= 0.0 ==> Roll(lateral, maxSpeed, a) >= 0.0
    ensures lateral <= 0.0 ==> Roll(lateral, maxSpeed, a) <= 0.0
  {
    RollUnclamped(lateral, maxSpeed, a);
    var slip := Slip(lateral, maxSpeed);
    if lateral >= 0.0 {
      NonNegProduct(a.maxRollAngle, slip);
      NonNegProduct(a.maxRollAngle * slip, a.rollScale);
    } else {
      NonNegProduct(a.maxRollAngle, -slip);
      NonNegProduct(a.maxRollAngle * -slip, a.rollScale);
      assert a.maxRollAngle * -slip * a.rollScale == -(a.maxRollAngle * slip * a.rollScale);
    }
  }
}
