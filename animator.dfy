/** The animator component attached to an arcade vehicle. Every tick it
    reads its vehicle (a `VehicleView`) and updates its own members and the
    animation blueprint's fields step by step, as the component does; each
    method is proved to leave exactly the state the corresponding function
    of `AnimatorStep` gives. The damped sine of the tilt is the parameter
    `wave`, and the distance the component writes back into its vehicle is
    returned. */
module Animation {
  import opened Numeric
  import opened Steering
  import opened VehicleRules
  import opened AnimatorRules
  import opened AnimatorStep

  class Animator {
    const settings: AnimatorSettings
    /** BeginPlay found an arcade vehicle as owner and a base animation
        blueprint on its mesh. */
    const linked: bool
    var isActive: bool
    /** The eased front wheel angle. */
    var wheels: WheelEase
    var wheelRotationAngle: real
    var tilt: TiltState
    var isVehicleAccelerating: bool
    var isVehicleBraking: bool
    /** The animation blueprint's fields this component writes. */
    var anim: AnimPose

    /** The settings are usable and the wheel clocks run forward. */
    ghost predicate Valid()
      reads this
    {
      settings.Valid() && wheels.Valid()
    }

    /** The members a tick updates, gathered into one value. */
    function State(): (s: AnimatorState)
      reads this
      ensures s.wheels == wheels && s.tilt == tilt && s.anim == anim
    {
      AnimatorState(wheels, wheelRotationAngle, tilt, isVehicleAccelerating, isVehicleBraking, anim)
    }

    /** The component's defaults, active from the start; the members the
        constructor leaves alone start at zero. */
    constructor (a: AnimatorSettings, linkedAtBeginPlay: bool)
      requires a.Valid()
      ensures Valid()
      ensures settings == a && linked == linkedAtBeginPlay && isActive
      ensures State() == InitialAnimator()
    {
      settings := a;
      linked := linkedAtBeginPlay;
      isActive := true;
      wheels := WheelEase(0.0, 0.0, 0.0, 0.0, 0.0);
      wheelRotationAngle := 0.0;
      tilt := TiltState(0.0, 0.0, 0.0, 0.0, false, 0.0);
      isVehicleAccelerating := false;
      isVehicleBraking := false;
      anim := AnimPose(0, 0, [], 0, 0.0, 0.0);
    }

    /** Activate / Deactivate. */
    method SetActive(active: bool)
      modifies this`isActive
      ensures isActive == active
    {
      isActive := active;
    }

    method TickComponent(v: VehicleView, wave: (real, real, real) -> real) returns (traveled: Option<real>)
      requires Valid() && ViewUsable(v)
      modifies this`wheels, this`wheelRotationAngle, this`tilt, this`isVehicleAccelerating, this`isVehicleBraking, this`anim
      ensures Valid()
      ensures !old(isActive) || !linked ==> State() == old(State()) && traveled == None
      ensures old(isActive) && linked ==> State() == AnimatorTick(old(State()), v, wave, settings, true, true)
      ensures old(isActive) && linked ==>
                traveled == if v.speed != 0 then Some(FrameDistance(v.speed, v.deltaTime)) else None
    {
      if !isActive || !linked {
        return None;
      }
      ghost var s0 := State();
      if v.accelerating && v.accelerating != isVehicleAccelerating && v.onGround {
        tilt := tilt.(resetTilt := true);
      }
      if v.braking && v.braking != isVehicleBraking && v.onGround {
        tilt := tilt.(resetTilt := true);
      }
      isVehicleAccelerating := v.accelerating;
      isVehicleBraking := v.braking;
      ghost var s1 := State();
      assert s1 == EdgeStep(s0, v);

      UpdateWheelsDirection(v);
      ghost var s2 := State();
      traveled := UpdateWheelsRotation(v);
      ghost var s3 := State();
      UpdateWheelsSuspensions(v);
      ghost var s4 := State();
      UpdateDriftDirection(v);
      ghost var s5 := State();
      UpdateTiltAndRoll(v, wave);
      assert State() == TiltRollStep(s5, v, wave, settings);
      assert s5 == DriftDirectionStep(SuspensionsStep(WheelsRotationStep(WheelsDirectionStep(s1, v, settings), v), v), v);
    }

    /** Retarget the wheels when the turn input's angle changed, ease them
        one tick, and publish the (truncated) wheel angle. */
    method UpdateWheelsDirection(v: VehicleView)
      requires Valid() && v.deltaTime >= 0.0
      modifies this`wheels, this`anim
      ensures Valid()
      ensures State() == WheelsDirectionStep(old(State()), v, settings)
    {
      ghost var before := wheels;
      var newTargetDirection := WheelTarget(v, settings);
      if newTargetDirection != wheels.target {
        wheels := wheels.(timer := 0.0);
        wheels := wheels.(previous := wheels.direction);
        wheels := wheels.(target := newTargetDirection);
        wheels := wheels.(duration := ChangeDuration(wheels.target, wheels.previous,
                                                     settings.wheelsRotationToNeutralDuration, settings.wheelsMaxDirectionAngle));
      }
      ghost var retargeted := wheels;
      assert retargeted == Retarget(before, WheelTarget(v, settings), settings.wheelsRotationToNeutralDuration,
                                    settings.wheelsMaxDirectionAngle);
      if wheels.timer < wheels.duration {
        wheels := wheels.(timer := wheels.timer + v.deltaTime);
        wheels := wheels.(direction := EasedAngle(wheels.previous, wheels.target, wheels.timer, wheels.duration));
      } else {
        wheels := wheels.(duration := 0.0);
        wheels := wheels.(timer := 0.0);
        wheels := wheels.(direction := wheels.target);
      }
      assert wheels == Advance(retargeted, v.deltaTime);
      anim := anim.(wheelDirection := Trunc(wheels.direction));
    }

    /** Advance the spin angle by the distance travelled this frame (or
        reset it when the vehicle stands still) and publish its signed
        remainder. The distance, which the component stores in its vehicle,
        is returned. */
    method UpdateWheelsRotation(v: VehicleView) returns (traveled: Option<real>)
      requires v.speed != 0 ==> v.targetSuspensionHeight != 0.0
      modifies this`wheelRotationAngle, this`anim
      ensures State() == WheelsRotationStep(old(State()), v)
      ensures traveled == if v.speed != 0 then Some(FrameDistance(v.speed, v.deltaTime)) else None
    {
      var rotationDirection := if v.speed > 0 then -1 else 1;
      if IntAbs(v.speed) > 0 {
        var p := WheelPerimeter(v.targetSuspensionHeight);
        traveled := Some(FrameDistance(v.speed, v.deltaTime));
        wheelRotationAngle := wheelRotationAngle + traveled.value / p * 360.0;
      } else {
        traveled := None;
        wheelRotationAngle := 0.0;
      }
      assert wheelRotationAngle == SpinAngle(old(wheelRotationAngle), v.speed, v.deltaTime, v.targetSuspensionHeight);
      var rotation := Rem360(Trunc(wheelRotationAngle));
      anim := anim.(wheelRotation := rotationDirection * rotation);
    }

    /** Hand the vehicle's suspension offsets to the blueprint. */
    method UpdateWheelsSuspensions(v: VehicleView)
      modifies this`anim
      ensures State() == SuspensionsStep(old(State()), v)
    {
      anim := anim.(wheelsOffsets := v.suspensionOffsets);
    }

    /** Publish the drift side: 0, or the sign of the drift direction. */
    method UpdateDriftDirection(v: VehicleView)
      modifies this`anim
      ensures State() == DriftDirectionStep(old(State()), v)
    {
      if v.drifting {
        anim := anim.(driftDirection := if v.driftDirection > 0 then 1 else -1);
      } else {
        anim := anim.(driftDirection := 0);
      }
    }

    /** Restart the tilt when one is pending and the blueprint's tilt is
        near level, advance its clock, and publish the tilt and the roll. */
    method UpdateTiltAndRoll(v: VehicleView, wave: (real, real, real) -> real)
      requires v.maxSpeed != 0
      modifies this`tilt, this`anim
      ensures State() == TiltRollStep(old(State()), v, wave, settings)
    {
      var speedDiffRatio := SpeedDiffRatio(v.speed, v.maxSpeed);

      if tilt.resetTilt && Abs(anim.tiltAngle) < 0.1 {
        tilt := Restarted(tilt, isVehicleAccelerating, isVehicleBraking, v, speedDiffRatio, settings);
      }
      tilt := tilt.(elapsed := tilt.elapsed + v.deltaTime);
      assert tilt == TiltAfter(old(State()), v, settings);

      anim := anim.(tiltAngle := TiltValue(tilt.maxTiltAngle, wave(tilt.damping, tilt.oscSpeed, tilt.elapsed),
                                           settings.scaleTiltWithSpeed, speedDiffRatio));
      anim := anim.(rollAngle := Roll(v.lateralVelocity, v.maxSpeed, settings));
    }
  }
}
