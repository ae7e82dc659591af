/** The animator component's state and its per-tick update, as functions:
    each `Update*` step of the component is one function from the state it
    finds to the state it leaves, and `AnimatorTick` is the whole
    `TickComponent`. The `Animator` class (animator.dfy) performs the same
    updates on its fields and is proved to agree with these functions; the
    lemmas here state what a tick promises. The damped sine of the tilt is
    the parameter `wave(damping, oscSpeed, elapsed)`. */
module AnimatorStep {
  import opened Numeric
  import opened Steering
  import opened VehicleRules
  import opened AnimatorRules

  /** The tilt animation's remembered values. */
  datatype TiltState = TiltState(
    maxTiltAngle: real,
    oscSpeed: real,
    damping: real,
    elapsed: real,      // seconds since the last restart
    resetTilt: bool,    // a restart is pending
    axisScale: real)    // the pedal pressure of the last restart

  /** Everything the component updates: its own members and the pose it
      hands to the animation blueprint. */
  datatype AnimatorState = AnimatorState(
    wheels: WheelEase,
    wheelRotationAngle: real,
    tilt: TiltState,
    isVehicleAccelerating: bool,
    isVehicleBraking: bool,
    anim: AnimPose)

  /** The state of a freshly built component: everything at zero or off. */
  function InitialAnimator(): (s: AnimatorState)
    ensures s.wheels.Valid() && !s.tilt.resetTilt
    ensures s.anim.wheelRotation == 0 && s.anim.wheelDirection == 0 && s.anim.driftDirection == 0
  {
    AnimatorState(WheelEase(0.0, 0.0, 0.0, 0.0, 0.0), 0.0,
                  TiltState(0.0, 0.0, 0.0, 0.0, false, 0.0), false, false,
                  AnimPose(0, 0, [], 0, 0.0, 0.0))
  }

  /** What the steps need of the vehicle they read: a frame time that does
      not run backwards, a non-zero max speed (it divides the speed ratio
      and the slip) and a non-zero wheel radius whenever the wheels turn. */
  predicate ViewUsable(v: VehicleView)
  {
    v.deltaTime >= 0.0 && v.maxSpeed != 0 && (v.speed != 0 ==> v.targetSuspensionHeight != 0.0)
  }

  /** The wheel angle the turn input asks for. */
  function WheelTarget(v: VehicleView, a: AnimatorSettings): real
  {
    v.turningScale * a.wheelsMaxDirectionAngle as real
  }

  /** A turn input in [-1, 1] aims the wheels no further than the max
      direction angle, and no input aims them straight. */
  lemma WheelTargetBound(v: VehicleView, a: AnimatorSettings)
    requires Abs(v.turningScale) <= 1.0
    ensures Abs(WheelTarget(v, a)) <= Abs(a.wheelsMaxDirectionAngle as real)
    ensures v.turningScale == 0.0 ==> WheelTarget(v, a) == 0.0
  {
    var m := a.wheelsMaxDirectionAngle as real;
    Shrinks(m, v.turningScale);
    assert WheelTarget(v, a) == m * v.turningScale;
  }

  // ---------------------------------------------------------------- steps

  /** TickComponent's edge detection: a pedal pressed on the ground since
      the last tick arms a tilt restart; the pedals are then remembered. */
  function EdgeStep(s: AnimatorState, v: VehicleView): (r: AnimatorState)
    ensures r.isVehicleAccelerating == v.accelerating && r.isVehicleBraking == v.braking
    ensures r.tilt.resetTilt
            == Rearmed(s.tilt.resetTilt, v.accelerating, s.isVehicleAccelerating,
                       v.braking, s.isVehicleBraking, v.onGround)
  {
    s.(tilt := s.tilt.(resetTilt := s.tilt.resetTilt
                                     || (v.accelerating && v.accelerating != s.isVehicleAccelerating && v.onGround)
                                     || (v.braking && v.braking != s.isVehicleBraking && v.onGround)),
       isVehicleAccelerating := v.accelerating,
       isVehicleBraking := v.braking)
  }

  /** UpdateWheelsDirection: retarget to the turn input, ease one tick, and
      hand the (truncated) wheel angle to the blueprint. */
  function WheelsDirectionStep(s: AnimatorState, v: VehicleView, a: AnimatorSettings): (r: AnimatorState)
    requires a.Valid() && s.wheels.Valid()
    ensures v.deltaTime >= 0.0 ==> r.wheels.Valid()
    ensures r.wheels.target == WheelTarget(v, a)
    ensures r.anim.wheelDirection == Trunc(r.wheels.direction)
  {
    s.(wheels := Advance(Retarget(s.wheels, WheelTarget(v, a), a.wheelsRotationToNeutralDuration, a.wheelsMaxDirectionAngle), v.deltaTime),
       anim := s.anim.(wheelDirection := Trunc(Advance(Retarget(s.wheels, WheelTarget(v, a), a.wheelsRotationToNeutralDuration,
                                                               a.wheelsMaxDirectionAngle), v.deltaTime).direction)))
  }

  /** UpdateWheelsRotation: advance (or reset) the spin angle and hand its
      signed remainder to the blueprint. */
  function WheelsRotationStep(s: AnimatorState, v: VehicleView): (r: AnimatorState)
    requires v.speed != 0 ==> v.targetSuspensionHeight != 0.0
    ensures -360 < r.anim.wheelRotation < 360
    ensures v.speed == 0 ==> r.wheelRotationAngle == 0.0 && r.anim.wheelRotation == 0
  {
    s.(wheelRotationAngle := SpinAngle(s.wheelRotationAngle, v.speed, v.deltaTime, v.targetSuspensionHeight),
       anim := s.anim.(wheelRotation := SpinOutput(SpinAngle(s.wheelRotationAngle, v.speed, v.deltaTime, v.targetSuspensionHeight), v.speed)))
  }

  /** UpdateWheelsSuspensions: copy the vehicle's suspension offsets. */
  function SuspensionsStep(s: AnimatorState, v: VehicleView): (r: AnimatorState)
    ensures r.anim.wheelsOffsets == v.suspensionOffsets
    ensures r.wheels == s.wheels && r.wheelRotationAngle == s.wheelRotationAngle && r.tilt == s.tilt
    ensures r.isVehicleAccelerating == s.isVehicleAccelerating && r.isVehicleBraking == s.isVehicleBraking
    ensures r.anim.wheelRotation == s.anim.wheelRotation && r.anim.wheelDirection == s.anim.wheelDirection
    ensures r.anim.driftDirection == s.anim.driftDirection
    ensures r.anim.tiltAngle == s.anim.tiltAngle && r.anim.rollAngle == s.anim.rollAngle
  {
    s.(anim := s.anim.(wheelsOffsets := v.suspensionOffsets))
  }

  /** UpdateDriftDirection: publish the drift side. */
  function DriftDirectionStep(s: AnimatorState, v: VehicleView): (r: AnimatorState)
    ensures -1 <= r.anim.driftDirection <= 1
    ensures r.anim.driftDirection == 0 <==> !v.drifting
    ensures v.drifting ==> (r.anim.driftDirection == 1 <==> v.driftDirection > 0)
    ensures r.wheels == s.wheels && r.wheelRotationAngle == s.wheelRotationAngle && r.tilt == s.tilt
    ensures r.isVehicleAccelerating == s.isVehicleAccelerating && r.isVehicleBraking == s.isVehicleBraking
    ensures r.anim.wheelRotation == s.anim.wheelRotation && r.anim.wheelDirection == s.anim.wheelDirection
    ensures r.anim.wheelsOffsets == s.anim.wheelsOffsets
    ensures r.anim.tiltAngle == s.anim.tiltAngle && r.anim.rollAngle == s.anim.rollAngle
  {
    s.(anim := s.anim.(driftDirection := DriftIndicator(v.drifting, v.driftDirection)))
  }

  /** The tilt values a restart picks: the pedal's angle scaled by its
      pressure, its damping, and its oscillation speed scaled by the speed
      ratio and held in [5, 10]; the pending restart is consumed and the
      clock starts again. */
  function Restarted(t: TiltState, accelerating: bool, braking: bool, v: VehicleView, ratio: real,
                     a: AnimatorSettings): TiltState
  {
    TiltState(
      maxTiltAngle := (if accelerating then a.accelerationTiltMaxAngle else a.brakingTiltMaxAngle)
                      * AxisScale(t.axisScale, accelerating, braking, v.accelerationScale, v.brakingScale),
      oscSpeed := OscSpeed(accelerating, ratio, a),
      damping := if accelerating then a.accelerationTiltDamping else a.brakingTiltDamping,
      elapsed := 0.0,
      resetTilt := false,
      axisScale := AxisScale(t.axisScale, accelerating, braking, v.accelerationScale, v.brakingScale))
  }

  /** The tilt values after this tick's (possible) restart and the advance
      of its clock. */
  function TiltAfter(s: AnimatorState, v: VehicleView, a: AnimatorSettings): TiltState
    requires v.maxSpeed != 0
  {
    if TiltRestarts(s.tilt.resetTilt, s.anim.tiltAngle) then
      Restarted(s.tilt, s.isVehicleAccelerating, s.isVehicleBraking, v, SpeedDiffRatio(v.speed, v.maxSpeed), a)
        .(elapsed := v.deltaTime)
    else s.tilt.(elapsed := s.tilt.elapsed + v.deltaTime)
  }

  /** UpdateTiltAndRoll: restart the tilt when one is pending and the
      blueprint's tilt is near level, advance its clock, and publish the
      tilt and the roll. */
  function TiltRollStep(s: AnimatorState, v: VehicleView, wave: (real, real, real) -> real,
                        a: AnimatorSettings): (r: AnimatorState)
    requires v.maxSpeed != 0
    ensures r.wheels == s.wheels && r.wheelRotationAngle == s.wheelRotationAngle
    ensures r.isVehicleAccelerating == s.isVehicleAccelerating && r.isVehicleBraking == s.isVehicleBraking
    ensures r.anim.wheelRotation == s.anim.wheelRotation && r.anim.wheelDirection == s.anim.wheelDirection
    ensures r.anim.wheelsOffsets == s.anim.wheelsOffsets && r.anim.driftDirection == s.anim.driftDirection
  {
    s.(tilt := TiltAfter(s, v, a),
       anim := s.anim.(tiltAngle := TiltValue(TiltAfter(s, v, a).maxTiltAngle,
                                              wave(TiltAfter(s, v, a).damping, TiltAfter(s, v, a).oscSpeed, TiltAfter(s, v, a).elapsed),
                                              a.scaleTiltWithSpeed, SpeedDiffRatio(v.speed, v.maxSpeed)),
                       rollAngle := Roll(v.lateralVelocity, v.maxSpeed, a)))
  }

  /** TickComponent: nothing happens while the component is inactive or not
      linked to a vehicle and its blueprint; otherwise the edge detection
      and the five updates, in order. */
  function AnimatorTick(s: AnimatorState, v: VehicleView, wave: (real, real, real) -> real,
                        a: AnimatorSettings, active: bool, linked: bool): (r: AnimatorState)
    requires a.Valid() && s.wheels.Valid() && ViewUsable(v)
    ensures r.wheels.Valid()
  {
    if !active || !linked then s
    else TiltRollStep(DriftDirectionStep(SuspensionsStep(WheelsRotationStep(WheelsDirectionStep(EdgeStep(s, v), v, a), v), v), v), v, wave, a)
  }

  // ---------------------------------------------------------------- what a tick promises

  /** An inactive or unlinked component changes nothing; an active one
      remembers the vehicle's pedals and publishes the drift side and the
      suspension offsets as the vehicle has them. */
  lemma TickPublishesVehicle(s: AnimatorState, v: VehicleView, wave: (real, real, real) -> real,
                             a: AnimatorSettings, active: bool, linked: bool)
    requires a.Valid() && s.wheels.Valid() && ViewUsable(v)
    ensures !active || !linked ==> AnimatorTick(s, v, wave, a, active, linked) == s
    ensures active && linked ==>
              && AnimatorTick(s, v, wave, a, active, linked).isVehicleAccelerating == v.accelerating
              && AnimatorTick(s, v, wave, a, active, linked).isVehicleBraking == v.braking
              && AnimatorTick(s, v, wave, a, active, linked).anim.wheelsOffsets == v.suspensionOffsets
              && AnimatorTick(s, v, wave, a, active, linked).anim.driftDirection == DriftIndicator(v.drifting, v.driftDirection)
              && AnimatorTick(s, v, wave, a, active, linked).anim.rollAngle == Roll(v.lateralVelocity, v.maxSpeed, a)
  {
    if active && linked {
      var e := EdgeStep(s, v);
      var w := WheelsRotationStep(WheelsDirectionStep(e, v, a), v);
      assert AnimatorTick(s, v, wave, a, active, linked) == TiltRollStep(DriftDirectionStep(SuspensionsStep(w, v), v), v, wave, a);
    }
  }

  /** The wheel pose after an active tick: the spin output stays within a
      turn (zero when the vehicle stands still) and the direction output is
      the truncated eased angle, heading for the turn input's target. */
  lemma TickWheelPose(s: AnimatorState, v: VehicleView, wave: (real, real, real) -> real, a: AnimatorSettings)
    requires a.Valid() && s.wheels.Valid() && ViewUsable(v)
    ensures -360 < AnimatorTick(s, v, wave, a, true, true).anim.wheelRotation < 360
    ensures v.speed == 0 ==> AnimatorTick(s, v, wave, a, true, true).anim.wheelRotation == 0
    ensures AnimatorTick(s, v, wave, a, true, true).wheels
            == Advance(Retarget(s.wheels, WheelTarget(v, a), a.wheelsRotationToNeutralDuration, a.wheelsMaxDirectionAngle),
                       v.deltaTime)
    ensures AnimatorTick(s, v, wave, a, true, true).anim.wheelDirection
            == Trunc(AnimatorTick(s, v, wave, a, true, true).wheels.direction)
  {
    var e := EdgeStep(s, v);
    var d := WheelsDirectionStep(e, v, a);
    var w := WheelsRotationStep(d, v);
    assert AnimatorTick(s, v, wave, a, true, true) == TiltRollStep(DriftDirectionStep(SuspensionsStep(w, v), v), v, wave, a);
  }

  /** A tilt restart is armed only by a pedal pressed on the ground, and it
      is consumed only once the blueprint's tilt is back under 0.1 degrees:
      after an active tick a restart is still pending exactly when one was
      armed and the tilt was not yet near level. */
  lemma TickTiltRestart(s: AnimatorState, v: VehicleView, wave: (real, real, real) -> real, a: AnimatorSettings)
    requires a.Valid() && s.wheels.Valid() && ViewUsable(v)
    ensures AnimatorTick(s, v, wave, a, true, true).tilt.resetTilt
            <==> Rearmed(s.tilt.resetTilt, v.accelerating, s.isVehicleAccelerating, v.braking, s.isVehicleBraking, v.onGround)
                 && Abs(s.anim.tiltAngle) >= 0.1
    ensures TiltRestarts(Rearmed(s.tilt.resetTilt, v.accelerating, s.isVehicleAccelerating, v.braking,
                                 s.isVehicleBraking, v.onGround), s.anim.tiltAngle) ==>
              && AnimatorTick(s, v, wave, a, true, true).tilt.elapsed == v.deltaTime
              && 5.0 <= AnimatorTick(s, v, wave, a, true, true).tilt.oscSpeed <= 10.0
              && AnimatorTick(s, v, wave, a, true, true).tilt.oscSpeed
                 == OscSpeed(v.accelerating, SpeedDiffRatio(v.speed, v.maxSpeed), a)
              && AnimatorTick(s, v, wave, a, true, true).tilt.axisScale
                 == AxisScale(s.tilt.axisScale, v.accelerating, v.braking, v.accelerationScale, v.brakingScale)
              && AnimatorTick(s, v, wave, a, true, true).tilt.maxTiltAngle
                 == (if v.accelerating then a.accelerationTiltMaxAngle else a.brakingTiltMaxAngle)
                    * AnimatorTick(s, v, wave, a, true, true).tilt.axisScale
              && AnimatorTick(s, v, wave, a, true, true).tilt.damping
                 == (if v.accelerating then a.accelerationTiltDamping else a.brakingTiltDamping)
    ensures !TiltRestarts(Rearmed(s.tilt.resetTilt, v.accelerating, s.isVehicleAccelerating, v.braking,
                                  s.isVehicleBraking, v.onGround), s.anim.tiltAngle) ==>
              && AnimatorTick(s, v, wave, a, true, true).tilt.elapsed == s.tilt.elapsed + v.deltaTime
              && AnimatorTick(s, v, wave, a, true, true).tilt.maxTiltAngle == s.tilt.maxTiltAngle
              && AnimatorTick(s, v, wave, a, true, true).tilt.oscSpeed == s.tilt.oscSpeed
              && AnimatorTick(s, v, wave, a, true, true).tilt.damping == s.tilt.damping
  {
    var e := EdgeStep(s, v);
    var w := DriftDirectionStep(SuspensionsStep(WheelsRotationStep(WheelsDirectionStep(e, v, a), v), v), v);
    assert w.tilt == e.tilt && w.anim.tiltAngle == s.anim.tiltAngle;
    assert w.isVehicleAccelerating == v.accelerating && w.isVehicleBraking == v.braking;
    assert AnimatorTick(s, v, wave, a, true, true).tilt == TiltAfter(w, v, a);
  }

  // ---------------------------------------------------------------- several ticks

  /** `n` active ticks reading the same vehicle view. */
  function AnimatorTicks(s: AnimatorState, v: VehicleView, wave: (real, real, real) -> real,
                         a: AnimatorSettings, n: nat): (r: AnimatorState)
    requires a.Valid() && s.wheels.Valid() && ViewUsable(v)
    ensures r.wheels.Valid()
    decreases n
  {
    if n == 0 then s else AnimatorTicks(AnimatorTick(s, v, wave, a, true, true), v, wave, a, n - 1)
  }

  /** Once the wheels head for the turn input's target, animator ticks ease
      them exactly as the shared easing does, and every tick publishes the
      truncated wheel angle. */
  lemma {:induction false} TicksFollowEasing(s: AnimatorState, v: VehicleView, wave: (real, real, real) -> real,
                                             a: AnimatorSettings, n: nat)
    requires a.Valid() && s.wheels.Valid() && ViewUsable(v) && s.wheels.target == WheelTarget(v, a)
    ensures AnimatorTicks(s, v, wave, a, n).wheels == AdvanceTicks(s.wheels, v.deltaTime, n)
    ensures n >= 1 ==> AnimatorTicks(s, v, wave, a, n).anim.wheelDirection
                       == Trunc(AnimatorTicks(s, v, wave, a, n).wheels.direction)
    decreases n
  {
    if n > 0 {
      var s1 := AnimatorTick(s, v, wave, a, true, true);
      TickWheelPose(s, v, wave, a);
      assert s1.wheels == Advance(s.wheels, v.deltaTime);
      TicksFollowEasing(s1, v, wave, a, n - 1);
      if n == 1 {
        assert AnimatorTicks(s, v, wave, a, n) == s1;
      }
    }
  }

  /** From any state, `n >= 1` ticks with the same view retarget the wheels
      once and then ease them tick after tick. */
  lemma TicksRetargetOnce(s: AnimatorState, v: VehicleView, wave: (real, real, real) -> real,
                          a: AnimatorSettings, n: nat)
    requires a.Valid() && s.wheels.Valid() && ViewUsable(v) && n >= 1
    ensures AnimatorTicks(s, v, wave, a, n).wheels
            == AdvanceTicks(Retarget(s.wheels, WheelTarget(v, a), a.wheelsRotationToNeutralDuration, a.wheelsMaxDirectionAngle),
                            v.deltaTime, n)
    ensures AnimatorTicks(s, v, wave, a, n).anim.wheelDirection == Trunc(AnimatorTicks(s, v, wave, a, n).wheels.direction)
  {
    var s1 := AnimatorTick(s, v, wave, a, true, true);
    TickWheelPose(s, v, wave, a);
    TicksFollowEasing(s1, v, wave, a, n - 1);
    assert AnimatorTicks(s, v, wave, a, n) == AnimatorTicks(s1, v, wave, a, n - 1);
  }

  /** With a steady turn input and a running clock, the wheels settle on the
      turn input's angle: after `n` ticks, once `n - 1` of them cover the
      change the first tick starts, the published wheel direction is the
      target angle, truncated. */
  lemma WheelsSettle(s: AnimatorState, v: VehicleView, wave: (real, real, real) -> real,
                     a: AnimatorSettings, n: nat)
    requires a.Valid() && s.wheels.Valid() && ViewUsable(v) && v.deltaTime > 0.0 && n >= 1
    requires (n - 1) as real * v.deltaTime
             >= Retarget(s.wheels, WheelTarget(v, a), a.wheelsRotationToNeutralDuration, a.wheelsMaxDirectionAngle).duration
                - Retarget(s.wheels, WheelTarget(v, a), a.wheelsRotationToNeutralDuration, a.wheelsMaxDirectionAngle).timer
    ensures AnimatorTicks(s, v, wave, a, n).wheels.direction == WheelTarget(v, a)
    ensures AnimatorTicks(s, v, wave, a, n).anim.wheelDirection == Trunc(WheelTarget(v, a))
  {
    TicksRetargetOnce(s, v, wave, a, n);
    EaseReachesTarget(Retarget(s.wheels, WheelTarget(v, a), a.wheelsRotationToNeutralDuration, a.wheelsMaxDirectionAngle),
                      v.deltaTime, n);
  }

  // ---------------------------------------------------------------- tilt bound

  /** The larger of the two pedals' tilt angles. */
  function TiltLimit(a: AnimatorSettings): (m: real)
    ensures Abs(a.accelerationTiltMaxAngle) <= m && Abs(a.brakingTiltMaxAngle) <= m
  {
    if Abs(a.accelerationTiltMaxAngle) >= Abs(a.brakingTiltMaxAngle) then Abs(a.accelerationTiltMaxAngle)
    else Abs(a.brakingTiltMaxAngle)
  }

  /** The remembered tilt amplitude is within the pedals' angles and the
      remembered pedal pressure in [0, 1]. */
  predicate TiltWithin(t: TiltState, a: AnimatorSettings)
  {
    Abs(t.maxTiltAngle) <= TiltLimit(a) && 0.0 <= t.axisScale <= 1.0
  }

  /** With pedal pressures in [0, 1], a speed within the max speed and a
      wave of magnitude at most 1, the published tilt never exceeds the
      larger pedal tilt angle, and the bound carries over to the next tick. */
  lemma TickTiltBounded(s: AnimatorState, v: VehicleView, wave: (real, real, real) -> real, a: AnimatorSettings)
    requires a.Valid() && s.wheels.Valid() && ViewUsable(v)
    requires 0 < v.maxSpeed && IntAbs(v.speed) <= v.maxSpeed
    requires 0.0 <= v.accelerationScale <= 1.0 && 0.0 <= v.brakingScale <= 1.0
    requires forall c, w, t :: Abs(wave(c, w, t)) <= 1.0
    requires TiltWithin(s.tilt, a)
    ensures TiltWithin(AnimatorTick(s, v, wave, a, true, true).tilt, a)
    ensures Abs(AnimatorTick(s, v, wave, a, true, true).anim.tiltAngle) <= TiltLimit(a)
  {
    var e := EdgeStep(s, v);
    var w := DriftDirectionStep(SuspensionsStep(WheelsRotationStep(WheelsDirectionStep(e, v, a), v), v), v);
    assert w.tilt == e.tilt && w.tilt.axisScale == s.tilt.axisScale && w.tilt.maxTiltAngle == s.tilt.maxTiltAngle;
    assert AnimatorTick(s, v, wave, a, true, true) == TiltRollStep(w, v, wave, a);
    TiltRollBounded(w, v, wave, a);
  }

  /** UpdateTiltAndRoll keeps the tilt within the pedals' angles. */
  lemma TiltRollBounded(s: AnimatorState, v: VehicleView, wave: (real, real, real) -> real, a: AnimatorSettings)
    requires 0 < v.maxSpeed && IntAbs(v.speed) <= v.maxSpeed
    requires 0.0 <= v.accelerationScale <= 1.0 && 0.0 <= v.brakingScale <= 1.0
    requires forall c, w, t :: Abs(wave(c, w, t)) <= 1.0
    requires TiltWithin(s.tilt, a)
    ensures TiltWithin(TiltRollStep(s, v, wave, a).tilt, a)
    ensures Abs(TiltRollStep(s, v, wave, a).anim.tiltAngle) <= TiltLimit(a)
  {
    var t := TiltAfter(s, v, a);
    if TiltRestarts(s.tilt.resetTilt, s.anim.tiltAngle) {
      RestartWithin(s.tilt, s.isVehicleAccelerating, s.isVehicleBraking, v, SpeedDiffRatio(v.speed, v.maxSpeed), a);
    }
    assert TiltWithin(t, a);
    TiltBounded(t.maxTiltAngle, wave(t.damping, t.oscSpeed, t.elapsed), a.scaleTiltWithSpeed,
                SpeedDiffRatio(v.speed, v.maxSpeed));
  }

  /** A restart with pedal pressures in [0, 1] picks an amplitude within the
      pedals' angles. */
  lemma RestartWithin(t: TiltState, accelerating: bool, braking: bool, v: VehicleView, ratio: real, a: AnimatorSettings)
    requires 0.0 <= v.accelerationScale <= 1.0 && 0.0 <= v.brakingScale <= 1.0 && 0.0 <= t.axisScale <= 1.0
    ensures TiltWithin(Restarted(t, accelerating, braking, v, ratio, a), a)
  {
    var k := AxisScale(t.axisScale, accelerating, braking, v.accelerationScale, v.brakingScale);
    var r := Restarted(t, accelerating, braking, v, ratio, a);
    var base := if accelerating then a.accelerationTiltMaxAngle else a.brakingTiltMaxAngle;
    assert r.maxTiltAngle == base * k && r.axisScale == k;
    ScaledWithin(base, k, TiltLimit(a));
  }

  lemma ScaledWithin(x: real, k: real, m: real)
    requires Abs(x) <= m && 0.0 <= k <= 1.0
    ensures Abs(x * k) <= m
  {
    Shrinks(x, k);
  }
}
