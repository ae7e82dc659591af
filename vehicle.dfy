/** The arcade vehicle actor's control and state layer. The actor's member
    variables live in one record field, `st`, which every method updates in
    place step by step, as the actor does; each method is proved to leave
    exactly the state the corresponding function of `VehicleStep` gives.
    The rigid-body engine is replaced by the per-tick `TickInput`
    (velocities, angular speed, wheel raycast results) and by the force
    magnitudes the tick returns; the Blueprint notifications are appended
    to the state's `events` trace. */
module Vehicle {
  import opened Numeric
  import opened Steering
  import opened VehicleRules
  import opened VehicleStep

  class ArcadeVehicle {
    const settings: Settings
    /** The member variables the control layer reads and writes. */
    var st: VehicleState
    /** The visual wheel angle: direction, target, previous direction, timer
        and change duration. */
    var wheels: WheelEase

    /** The settings are usable, the wheel clock runs forward and the state
        satisfies `StateValid`. */
    ghost predicate Valid()
      reads this
    {
      settings.Valid() && wheels.Valid() && StateValid(st, settings)
    }

    /** `Valid`, except that accelerating and braking may both be on (the
        two input setters restore the exclusion). */
    ghost predicate Consistent()
      reads this
    {
      settings.Valid() && wheels.Valid() && StateConsistent(st, settings)
    }

    constructor (s: Settings)
      requires s.Valid()
      ensures Valid()
      ensures settings == s && st == InitialState(s) && wheels == WheelEase(0.0, 0.0, 0.0, 0.0, 0.0)
    {
      settings := s;
      st := InitialState(s);
      wheels := WheelEase(0.0, 0.0, 0.0, 0.0, 0.0);
    }

    /** The members the animator component reads. */
    function View(): (v: VehicleView)
      reads this
      requires Valid()
      ensures v.speed >= 0 && v.maxSpeed != 0
      ensures (v.drifting <==> v.driftDirection != 0) && -1 <= v.driftDirection <= 1
      ensures !(v.accelerating && v.braking)
    {
      VehicleView(st.controls.accelerating, st.controls.braking, st.contact.onGround, st.drift.drifting,
                  st.drift.driftDirection, st.controls.turningScale, st.motion.deltaTime, st.motion.speed,
                  settings.maxSpeed, settings.targetSuspensionHeight, st.motion.lateralVelocity,
                  st.controls.accelerationScale, st.controls.brakingScale, st.contact.suspensionOffsets)
    }

    // ------------------------------------------------------------ input setters

    method SetAccelerate(scale: real)
      requires Consistent()
      modifies this`st
      ensures Consistent()
      ensures old(Valid()) || scale <= 0.05 ==> Valid()
      ensures st == AccelerateInput(old(st), scale)
      decreases if scale > 0.05 then 1 else 0
    {
      st := st.(controls := st.controls.(accelerationScale := scale));
      var value := st.controls.accelerationScale > 0.05;
      if st.controls.accelerating == value {
        return;
      }
      st := st.(controls := st.controls.(accelerating := value));
      st := st.(events := st.events + [if st.controls.accelerating then StartAccelerate else StopAccelerate]);
      if st.controls.accelerating {
        SetBrake(0.0);
      }
    }

    method SetBrake(scale: real)
      requires Consistent()
      modifies this`st
      ensures Consistent()
      ensures old(Valid()) || scale <= 0.05 ==> Valid()
      ensures st == BrakeInput(old(st), scale)
      decreases if scale > 0.05 then 1 else 0
    {
      st := st.(controls := st.controls.(brakingScale := scale));
      var value := st.controls.brakingScale > 0.05;
      if st.controls.braking == value {
        return;
      }
      st := st.(controls := st.controls.(braking := value));
      st := st.(events := st.events + [if st.controls.braking then StartBrake else StopBrake]);
      if st.controls.braking {
        SetAccelerate(0.0);
      }
    }

    method SetDrift(value: bool)
      modifies this`st
      ensures st == DriftRequest(old(st), value)
      ensures old(Valid()) ==> Valid()
    {
      if st.drift.drifting == value {
        return;
      }
      st := st.(drift := st.drift.(drifting := value && st.drift.canDrift));
      if st.drift.drifting {
        st := st.(drift := st.drift.(driftDirection := if st.controls.turningScale > 0.0 then 1 else -1));
        st := st.(drift := st.drift.(driftRecoverTimer := -1.0));
      } else {
        st := st.(drift := st.drift.(driftDirection := 0));
        st := st.(drift := st.drift.(driftRecoverTimer := 0.0));
      }
      st := st.(events := st.events + [if st.drift.drifting then StartDrift else StopDrift]);
    }

    /** Store the turn input and retarget the visual wheel angle. */
    method SetTurn(scale: real)
      requires Valid()
      modifies this`st, this`wheels
      ensures Valid()
      ensures st == TurnInput(old(st), scale, settings)
      ensures wheels == Retarget(old(wheels), st.controls.turningScale * settings.wheelsMaxDirectionAngle as real,
                                 settings.wheelsRotationToNeutralDuration, settings.wheelsMaxDirectionAngle)
    {
      st := st.(controls := st.controls.(turningScale := scale));
      if st.drift.drifting {
        ApplyDriftTurnChanges(scale);
      }
      assert st == TurnInput(old(st), scale, settings);
      assert StateValid(st, settings);
      wheels := Retarget(wheels, st.controls.turningScale * settings.wheelsMaxDirectionAngle as real,
                         settings.wheelsRotationToNeutralDuration,
                         settings.wheelsMaxDirectionAngle);
    }

    /** Push the stored turn input toward the drift side (the argument is unused). */
    method ApplyDriftTurnChanges(scale: real)
      modifies this`st
      ensures var t := DriftSteer(old(st).controls.turningScale, old(st).drift.driftDirection, settings.driftTurningScaleOffset);
              st == old(st).(controls := old(st).controls.(turningScale := t))
    {
      if st.drift.driftDirection == -1 {
        st := st.(controls := st.controls.(turningScale := st.controls.turningScale - settings.driftTurningScaleOffset));
        st := st.(controls := st.controls.(turningScale := Clamp(st.controls.turningScale, -1.0, 0.0)));
      } else {
        st := st.(controls := st.controls.(turningScale := st.controls.turningScale + settings.driftTurningScaleOffset));
        st := st.(controls := st.controls.(turningScale := Clamp(st.controls.turningScale, 0.0, 1.0)));
      }
    }

    method Stop()
      requires Valid()
      modifies this`st
      ensures Valid()
      ensures st == Released(old(st))
    {
      SetDrift(false);
      SetAccelerate(0.0);
      SetBrake(0.0);
      st := st.(controls := st.controls.(turningScale := 0.0));
    }

    /** Jump: the upward impulse (jump force times mass) handed to the
        physics engine, if any. */
    method Jump() returns (impulse: Applied)
      requires Valid()
      modifies this`st
      ensures Valid()
      ensures st == JumpRequest(old(st), settings)
      ensures impulse.Applied? <==> settings.jumpEnabled && !old(st).contact.jumping
      ensures impulse.Applied? ==> impulse.amount == settings.jumpForce * settings.mass
    {
      impulse := NotApplied;
      if settings.jumpEnabled {
        if !st.contact.jumping {
          impulse := Applied(settings.jumpForce * settings.mass);
          st := st.(contact := st.contact.(jumping := true));
          st := st.(contact := st.contact.(jumpSuspensionTimer := 0.0));
        }
      }
    }

    // ------------------------------------------------------------ state update steps

    /** Speed in truncated km/h made non-negative, its percentage of max
        speed, and the reverse flag (see `ReadSpeed`). */
    method CalculateSpeedAndDirection(forward: real, lateral: real)
      requires settings.Valid()
      modifies this`st
      ensures var r := ReadSpeed(forward, settings.maxSpeed);
              st == old(st).(motion := old(st).motion.(forwardVelocity := forward, lateralVelocity := lateral,
                                                        speed := r.speed, speedPercent := r.percent, onReverse := r.reverse))
    {
      st := st.(motion := st.motion.(forwardVelocity := forward, lateralVelocity := lateral));
      var signed := Trunc(SpeedToKmH(st.motion.forwardVelocity));
      st := st.(motion := st.motion.(speedPercent := IntAbs(Trunc(signed as real / settings.maxSpeed as real * 100.0))));
      st := st.(motion := st.motion.(onReverse := signed < 0));
      st := st.(motion := st.motion.(speed := if st.motion.onReverse then -signed else signed));
    }

    method CalculateMaxTurningAngle()
      requires settings.Valid()
      modifies this`st
      ensures var a := TurningEnvelope(old(st).motion.speed, old(st).drift.drifting, settings);
              st == old(st).(motion := old(st).motion.(maxTurningAngle := a))
    {
      var angleDiff := settings.maxTurningAngleAtMinSpeed - settings.maxTurningAngleAtFullSpeed;
      var angle := (1.0 - Quot(st.motion.speed, settings.maxSpeed) as real) * angleDiff + settings.maxTurningAngleAtFullSpeed;
      if st.drift.drifting {
        angle := angle + settings.driftTurningAngleBoost;
      }
      assert angle == TurningEnvelope(st.motion.speed, st.drift.drifting, settings);
      st := st.(motion := st.motion.(maxTurningAngle := angle));
    }

    /** Count the wheels in contact and update the ground flag, notifying
        each change. */
    method GroundCheck(samples: seq<WheelSample>)
      modifies this`st
      ensures var grounded := CountHits(samples) >= settings.wheelsForOnGround;
              st == old(st).(contact := old(st).contact.(nbWheelsOnGround := CountHits(samples), onGround := grounded),
                             events := old(st).events + GroundEdge(old(st).contact.onGround, grounded))
    {
      st := st.(contact := st.contact.(nbWheelsOnGround := 0));
      var i := 0;
      while i < |samples|
        invariant 0 <= i <= |samples|
        invariant st == old(st).(contact := old(st).contact.(nbWheelsOnGround := CountHits(samples[..i])))
      {
        assert samples[..i + 1][..i] == samples[..i];
        if samples[i].hit {
          st := st.(contact := st.contact.(nbWheelsOnGround := st.contact.nbWheelsOnGround + 1));
        }
        i := i + 1;
      }
      assert samples[..i] == samples;
      var nowOnGround := st.contact.nbWheelsOnGround >= settings.wheelsForOnGround;
      if !st.contact.onGround && nowOnGround {
        st := st.(events := st.events + [OffGroundEnd]);
      } else if st.contact.onGround && !nowOnGround {
        st := st.(events := st.events + [OffGroundStart]);
      }
      st := st.(contact := st.contact.(onGround := nowOnGround));
    }

    /** Notify once when the forward velocity drops below 1 cm/s. */
    method DetectStop()
      modifies this`st
      ensures var halted := old(st).motion.forwardVelocity < 1.0;
              st == old(st).(motion := old(st).motion.(stopped := halted),
                             events := old(st).events + (if halted && !old(st).motion.stopped then [Event.Stop] else []))
    {
      if st.motion.forwardVelocity < 1.0 {
        if !st.motion.stopped {
          st := st.(events := st.events + [Event.Stop]);
          st := st.(motion := st.motion.(stopped := true));
        }
      } else {
        st := st.(motion := st.motion.(stopped := false));
      }
    }

    /** During a jump the suspension is off until the jump-suspension delay
        has passed; the jump ends on the first tick on the ground after that. */
    method JumpSuspensionGate() returns (applySuspension: bool)
      modifies this`st
      ensures applySuspension == SuspensionApplies(old(st), settings)
      ensures var c := old(st).contact;
              var timer := c.jumpSuspensionTimer + (if c.jumping then old(st).motion.deltaTime else 0.0);
              st == old(st).(contact := c.(jumpSuspensionTimer := timer,
                                           jumping := c.jumping && !(timer >= settings.jumpSuspensionDelay && c.onGround)))
    {
      applySuspension := true;
      if st.contact.jumping {
        st := st.(contact := st.contact.(jumpSuspensionTimer := st.contact.jumpSuspensionTimer + st.motion.deltaTime));
        if st.contact.jumpSuspensionTimer < settings.jumpSuspensionDelay {
          applySuspension := false;
        } else if st.contact.onGround {
          st := st.(contact := st.contact.(jumping := false));
        }
      }
    }

    /** Rebuild the list of wheels that receive a suspension force: those
        whose ray hit something, in order. */
    method ApplySuspension(samples: seq<WheelSample>)
      modifies this`st
      ensures st == old(st).(contact := old(st).contact.(suspensionForceWheels := HitIndices(samples)))
    {
      st := st.(contact := st.contact.(suspensionForceWheels := []));
      var i := 0;
      while i < |samples|
        invariant 0 <= i <= |samples|
        invariant st == old(st).(contact := old(st).contact.(suspensionForceWheels := HitIndices(samples[..i])))
      {
        assert samples[..i + 1][..i] == samples[..i];
        if samples[i].hit {
          st := st.(contact := st.contact.(suspensionForceWheels := st.contact.suspensionForceWheels + [i]));
        }
        i := i + 1;
      }
      assert samples[..i] == samples;
    }

    /** Rebuild the visual suspension offsets: one per wheel. */
    method ComputeSuspensionOffsets(samples: seq<WheelSample>)
      modifies this`st
      ensures st == old(st).(contact := old(st).contact.(suspensionOffsets := WheelOffsets(samples, settings)))
    {
      st := st.(contact := st.contact.(suspensionOffsets := []));
      var i := 0;
      while i < |samples|
        invariant 0 <= i <= |samples|
        invariant st == old(st).(contact := old(st).contact.(suspensionOffsets := st.contact.suspensionOffsets))
        invariant |st.contact.suspensionOffsets| == i
        invariant forall k :: 0 <= k < i ==> st.contact.suspensionOffsets[k] == WheelOffset(samples[k], settings)
      {
        var offset;
        if samples[i].hit {
          offset := Clamp(-1.0 * (samples[i].distance - settings.targetSuspensionHeight),
                          settings.minSuspensionOffset, settings.maxSuspensionOffset);
        } else {
          offset := settings.minSuspensionOffset;
        }
        st := st.(contact := st.contact.(suspensionOffsets := st.contact.suspensionOffsets + [offset]));
        i := i + 1;
      }
      assert st.contact.suspensionOffsets == WheelOffsets(samples, settings);
    }

    /** The lateral grip force (see `AdherenceForce`). */
    method ApplyAdherence()
      requires settings.Valid()
      modifies this`st
      ensures st == AdhereStep(old(st), settings)
    {
      if !st.contact.onGround {
        st := st.(force := st.force.(adherenceForce := 0.0));
        return;
      }
      var force := -(SpeedToKmH(st.motion.lateralVelocity) / settings.maxSpeed as real) * settings.mass * settings.adherence;
      if st.drift.drifting {
        force := force - force * (settings.driftAdherenceNerf / 100.0);
      } else {
        var ratio := if settings.driftRecoverDuration == 0.0 then (if st.drift.driftRecoverTimer < 0.0 then 0.0 else 1.0)
                     else Clamp(st.drift.driftRecoverTimer / settings.driftRecoverDuration, 0.0, 1.0);
        force := force * ratio;
      }
      st := st.(force := st.force.(adherenceForce := force));
    }

    // ------------------------------------------------------------ physics steps

    /** Accelerate: stop the reverse-delay timer and, below max speed, push
        forward (less while drifting, by the compensation factor). */
    method Accelerate() returns (force: Applied)
      requires settings.Valid()
      modifies this`st
      ensures var f := AccelerationForce(old(st).motion.speed, old(st).controls.accelerationScale, settings);
              && st == old(st).(force := old(st).force.(reverseDelayTimer := -1.0,
                                   accelerationForce := if f.Applied? then f.amount else old(st).force.accelerationForce))
              && force == if f.Applied? then Applied(f.amount * (if st.drift.drifting then settings.driftAccelerationCompensation else 1.0))
                          else NotApplied
    {
      st := st.(force := st.force.(reverseDelayTimer := -1.0));
      if st.motion.speed >= settings.maxSpeed {
        return NotApplied;
      }
      var speedRatio := 1.0 - Quot(st.motion.speed, settings.maxSpeed) as real;
      var f := settings.mass * settings.acceleration * speedRatio;
      st := st.(force := st.force.(accelerationForce := f * st.controls.accelerationScale));
      if !st.drift.drifting {
        force := Applied(st.force.accelerationForce);
      } else {
        force := Applied(st.force.accelerationForce * settings.driftAccelerationCompensation);
      }
    }

    /** Brake, or reverse after the delay (see `BrakeStep`). */
    method Brake() returns (force: Applied)
      modifies this`st
      ensures var b := BrakeStep(old(st).motion.speed, old(st).force.reverseDelayTimer, old(st).controls.brakingScale, settings);
              st == old(st).(force := old(st).force.(reverseDelayTimer := b.reverseTimer))
      ensures force == BrakeStep(old(st).motion.speed, old(st).force.reverseDelayTimer, old(st).controls.brakingScale, settings).force
    {
      force := NotApplied;
      if st.motion.speed <= 0 {
        if st.force.reverseDelayTimer == -1.0 {
          st := st.(force := st.force.(reverseDelayTimer := 0.0));
        } else if st.force.reverseDelayTimer >= settings.delayBeforeReverse {
          if Abs(st.motion.speed as real) >= settings.maxReverseSpeed {
            return;
          }
          force := Applied(-(settings.mass * settings.brake));
        }
        return;
      }
      force := Applied(-(settings.mass * settings.brake * st.controls.brakingScale));
    }

    /** Update the drift timer and the permission to drift (see `DriftStep`),
        notifying each change of permission. */
    method Drift()
      modifies this`st
      ensures st == DriftPhase(old(st), settings)
    {
      var newCanDrift := st.drift.canDrift;
      if !st.drift.drifting {
        if st.motion.speedPercent as real >= settings.driftMinSpeed {
          if Abs(st.controls.turningScale) < settings.driftMinTurningScale {
            st := st.(drift := st.drift.(driftTimer := -1.0));
            newCanDrift := false;
          } else if Abs(st.controls.turningScale) >= settings.driftMinTurningScale {
            if st.drift.driftTimer != -1.0 {
              st := st.(drift := st.drift.(driftTimer := st.drift.driftTimer + st.motion.deltaTime));
            } else {
              st := st.(drift := st.drift.(driftTimer := 0.0));
            }
          }
          if !st.drift.drifting && st.drift.driftTimer >= settings.driftDelay {
            newCanDrift := true;
          }
        } else {
          st := st.(drift := st.drift.(driftTimer := -1.0));
          newCanDrift := false;
        }
        if !st.drift.canDrift && newCanDrift {
          st := st.(events := st.events + [CanDriftStart]);
        } else if st.drift.canDrift && !newCanDrift {
          st := st.(events := st.events + [CanDriftEnd]);
        }
        st := st.(drift := st.drift.(canDrift := newCanDrift));
      }
    }

    /** Apply the steering torque, if any (see `SteeringTorque`); applying it
        while reversing inverts the stored turn input. */
    method Turn(angularSpeedUp: real) returns (torque: Applied)
      modifies this`st
      ensures st == TurnPhase(old(st), angularSpeedUp, settings)
      ensures torque == Steer(old(st), angularSpeedUp, settings)
    {
      st := st.(controls := st.controls.(turning := false));
      if Abs(st.motion.speed as real) < 5.0 {
        return NotApplied;
      }
      if Abs(angularSpeedUp) <= st.motion.maxTurningAngle && Abs(st.controls.turningScale) > 0.0 {
        st := st.(controls := st.controls.(turningScale := st.controls.turningScale * (if st.motion.onReverse then -1.0 else 1.0)));
        torque := Applied(settings.turningForce * st.controls.turningScale);
        st := st.(controls := st.controls.(turning := true));
      } else {
        torque := NotApplied;
      }
    }

    // ------------------------------------------------------------ tick

    /** The on-ground propulsion choice: brake (ending any drift and running
        the reverse-delay timer), else accelerate, else coast (ending any
        drift). */
    method Propel() returns (propulsion: Applied)
      requires settings.Valid()
      modifies this`st
      ensures st == PropelStep(old(st), settings)
      ensures propulsion == Propulsion(old(st), settings)
    {
      propulsion := NotApplied;
      if st.controls.braking {
        SetDrift(false);
        if st.force.reverseDelayTimer >= 0.0 {
          st := st.(force := st.force.(reverseDelayTimer := st.force.reverseDelayTimer + st.motion.deltaTime));
        }
        propulsion := Brake();
      } else if st.controls.accelerating {
        propulsion := Accelerate();
      } else {
        SetDrift(false);
      }
    }

    /** Sensing: speed, turning envelope, ground contact and the stop edge. */
    method Sense(input: TickInput)
      requires settings.Valid()
      modifies this`st
      ensures st == SenseStep(old(st), input, settings)
    {
      CalculateSpeedAndDirection(input.forwardVelocity, input.lateralVelocity);
      CalculateMaxTurningAngle();
      GroundCheck(input.wheels);
      DetectStop();
    }

    /** The suspension step: the jump gate, the wheels receiving a
        suspension force and the visual offsets. Returns whether the
        suspension was applied. */
    method Suspend(samples: seq<WheelSample>) returns (applySuspension: bool)
      modifies this`st
      ensures st == SuspendStep(old(st), samples, settings)
      ensures applySuspension == SuspensionApplies(old(st), settings)
    {
      applySuspension := JumpSuspensionGate();
      if applySuspension {
        ApplySuspension(samples);
      }
      ComputeSuspensionOffsets(samples);
    }

    /** The on-ground branch of a tick: propulsion, drift gate, steering. */
    method GroundPhase(angularSpeedUp: real) returns (propulsion: Applied, steering: Applied)
      requires settings.Valid()
      modifies this`st
      ensures st == GroundStep(old(st), angularSpeedUp, settings)
      ensures propulsion == Propulsion(old(st), settings)
      ensures steering == Steer(DriftPhase(PropelStep(old(st), settings), settings), angularSpeedUp, settings)
    {
      propulsion := Propel();
      Drift();
      steering := Turn(angularSpeedUp);
    }

    /** One frame: set the frame time, advance the drift-recover timer and
        clear the acceleration force; then, for a valid vehicle, sense, run
        the suspension, compute adherence, and either propel, drift and turn
        on the ground, or end any drift in the air. */
    method Tick(input: TickInput) returns (out: Option<Forces>)
      requires Valid() && input.deltaTime >= 0.0
      modifies this`st
      ensures st == TickStep(old(st), input, settings)
      ensures out == TickForces(old(st), input, settings)
      ensures Valid()
    {
      TickKeepsValid(st, input, settings);
      st := st.(motion := st.motion.(deltaTime := input.deltaTime));
      st := st.(drift := st.drift.(driftRecoverTimer := st.drift.driftRecoverTimer + st.motion.deltaTime));
      st := st.(force := st.force.(accelerationForce := 0.0));
      if !input.isValid {
        return None;
      }

      Sense(input);
      var applySuspension := Suspend(input.wheels);
      ApplyAdherence();
      assert st == Sensed(old(st), input, settings);

      var propulsion: Applied := NotApplied;
      var steering: Applied := NotApplied;
      if st.contact.onGround {
        propulsion, steering := GroundPhase(input.angularSpeedUp);
      } else {
        SetDrift(false);
      }
      out := Some(Forces(st.force.adherenceForce, propulsion, steering,
                         if applySuspension then st.contact.suspensionForceWheels else [],
                         !st.contact.onGround && settings.stabilizeInAir));
    }
  }
}
