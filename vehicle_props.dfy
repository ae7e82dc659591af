/** What the vehicle's operations promise, stated over the value model in
    `VehicleStep`: the input setters, the jump, one tick, and runs of ticks. */
module VehicleProps {
  import opened Numeric
  import opened VehicleRules
  import opened VehicleStep

  // ---------------------------------------------------------------- input setters

  /** SetAccelerate stores the scale, derives the flag from it, releases the
      brake when acceleration starts, and notifies each change of either
      flag exactly once. */
  lemma AccelerateInputExclusive(v: VehicleState, scale: real)
    requires v.controls.braking == (v.controls.brakingScale > 0.05)
    requires !(v.controls.accelerating && v.controls.braking)
    ensures var w := AccelerateInput(v, scale);
            && w.controls.accelerationScale == scale
            && w.controls.accelerating == (scale > 0.05)
            && !(w.controls.accelerating && w.controls.braking)
            && w.controls.braking == (w.controls.brakingScale > 0.05)
            && (w.controls.accelerating == v.controls.accelerating ==>
                  w == v.(controls := v.controls.(accelerationScale := scale)))
            && (w.controls.accelerating && !v.controls.accelerating ==>
                  && w.controls.brakingScale == 0.0
                  && w.events == v.events + [StartAccelerate] + (if v.controls.braking then [StopBrake] else []))
            && (!w.controls.accelerating && v.controls.accelerating ==> w.events == v.events + [StopAccelerate])
  {
  }

  /** SetBrake stores the scale, derives the flag from it, releases the
      accelerator when braking starts, and notifies each change of either
      flag exactly once. */
  lemma BrakeInputExclusive(v: VehicleState, scale: real)
    requires v.controls.accelerating == (v.controls.accelerationScale > 0.05)
    requires !(v.controls.accelerating && v.controls.braking)
    ensures var w := BrakeInput(v, scale);
            && w.controls.brakingScale == scale
            && w.controls.braking == (scale > 0.05)
            && !(w.controls.accelerating && w.controls.braking)
            && w.controls.accelerating == (w.controls.accelerationScale > 0.05)
            && (w.controls.braking == v.controls.braking ==>
                  w == v.(controls := v.controls.(brakingScale := scale)))
            && (w.controls.braking && !v.controls.braking ==>
                  && w.controls.accelerationScale == 0.0
                  && w.events == v.events + [StartBrake] + (if v.controls.accelerating then [StopAccelerate] else []))
            && (!w.controls.braking && v.controls.braking ==> w.events == v.events + [StopBrake])
  {
  }

  /** SetDrift keeps a drift gated on permission: a request equal to the
      current state changes nothing, and a drift that is on after the call
      was allowed. Conversely a permitted request starts the drift toward
      the side steered to, stops the recover timer and notifies the start;
      releasing a drift centres it, restarts the recover timer and notifies
      the stop. */
  lemma DriftRequestGated(v: VehicleState, value: bool)
    requires v.drift.drifting ==> v.drift.canDrift
    ensures var w := DriftRequest(v, value);
            && (value == v.drift.drifting ==> w == v)
            && (w.drift.drifting ==> w.drift.canDrift && value)
            && (value != v.drift.drifting ==> |w.events| == |v.events| + 1)
    ensures var w := DriftRequest(v, value);
            value && v.drift.canDrift && !v.drift.drifting ==>
              && w.drift.drifting
              && w.drift.driftDirection == (if v.controls.turningScale > 0.0 then 1 else -1)
              && w.drift.driftRecoverTimer == -1.0
              && w.events == v.events + [StartDrift]
    ensures var w := DriftRequest(v, value);
            v.drift.drifting && !value ==>
              && !w.drift.drifting
              && w.drift.driftDirection == 0
              && w.drift.driftRecoverTimer == 0.0
              && w.events == v.events + [StopDrift]
  {
  }

  /** Asking to drift without permission ends in the stop branch: the stop
      notification fires and the recover timer restarts, and since the
      vehicle is still not drifting, asking again does the same again. */
  lemma RefusedDriftRepeatsStop(v: VehicleState)
    requires !v.drift.drifting && !v.drift.canDrift
    ensures var w := DriftRequest(v, true);
            && !w.drift.drifting && w.drift.driftDirection == 0 && w.drift.driftRecoverTimer == 0.0
            && w.events == v.events + [StopDrift]
    ensures DriftRequest(DriftRequest(v, true), true).events == v.events + [StopDrift, StopDrift]
  {
  }

  /** SetTurn while drifting keeps the turn input on the drift side (left in
      [-1, 0] for direction -1, right in [0, 1] otherwise) and touches
      nothing else of the state. */
  lemma TurnInputHoldsDriftSide(v: VehicleState, scale: real, s: Settings)
    ensures var w := TurnInput(v, scale, s);
            && w == v.(controls := v.controls.(turningScale := w.controls.turningScale))
            && (!v.drift.drifting ==> w.controls.turningScale == scale)
            && (v.drift.drifting && v.drift.driftDirection == -1 ==> -1.0 <= w.controls.turningScale <= 0.0)
            && (v.drift.drifting && v.drift.driftDirection != -1 ==> 0.0 <= w.controls.turningScale <= 1.0)
  {
  }

  /** Stop leaves no intent behind: no drift, no acceleration, no brake,
      zero scales and a centred turn input. */
  lemma StopReleasesAll(v: VehicleState, s: Settings)
    requires StateValid(v, s)
    ensures var w := Released(v);
            && !w.drift.drifting && w.drift.driftDirection == 0
            && !w.controls.accelerating && !w.controls.braking
            && w.controls.accelerationScale == 0.0 && w.controls.brakingScale == 0.0
            && w.controls.turningScale == 0.0
            && StateValid(w, s)
  {
    DriftRequestKeepsValid(v, false, s);
  }

  /** Jump starts the jump and its suspension delay when enabled and not
      already jumping (it looks neither at the ground nor at the speed), and
      changes nothing otherwise. */
  lemma JumpStartsDelay(v: VehicleState, s: Settings)
    ensures var w := JumpRequest(v, s);
            && (s.jumpEnabled && !v.contact.jumping ==>
                  w.contact.jumping && w.contact.jumpSuspensionTimer == 0.0
                  && w == v.(contact := v.contact.(jumping := true, jumpSuspensionTimer := 0.0)))
            && (!s.jumpEnabled || v.contact.jumping ==> w == v)
  {
  }

  // ---------------------------------------------------------------- one tick

  /** A tick of a vehicle without a mesh returns no forces and only sets the
      frame time, advances the recover timer and clears the acceleration
      force. */
  lemma InvalidTickOnlyAdvancesTimers(v: VehicleState, input: TickInput, s: Settings)
    requires s.maxSpeed != 0 && !input.isValid
    ensures TickForces(v, input, s) == None
    ensures var w := TickStep(v, input, s);
            && w.controls == v.controls && w.contact == v.contact && w.events == v.events
            && w.motion == v.motion.(deltaTime := input.deltaTime)
            && w.drift == v.drift.(driftRecoverTimer := v.drift.driftRecoverTimer + input.deltaTime)
            && w.force == v.force.(accelerationForce := 0.0)
  {
  }

  /** After a valid tick the speed, the wheel count, the ground flag, the
      stop flag and the visual offsets are what the inputs dictate. */
  lemma TickReadsInputs(v: VehicleState, input: TickInput, s: Settings)
    requires s.maxSpeed != 0 && input.isValid
    ensures var w := TickStep(v, input, s);
            var r := ReadSpeed(input.forwardVelocity, s.maxSpeed);
            && w.motion.speed == r.speed && w.motion.speedPercent == r.percent && w.motion.onReverse == r.reverse
            && w.motion.stopped == (input.forwardVelocity < 1.0)
            && w.contact.nbWheelsOnGround == CountHits(input.wheels)
            && w.contact.onGround == (CountHits(input.wheels) >= s.wheelsForOnGround)
            && |w.contact.suspensionOffsets| == |input.wheels|
            && (forall i :: 0 <= i < |input.wheels| ==>
                  w.contact.suspensionOffsets[i] == WheelOffset(input.wheels[i], s))
  {
    var u := Sensed(v, input, s);
    var w := TickStep(v, input, s);
    assert w.motion == u.motion && w.contact == u.contact by {
      if u.contact.onGround {
        GroundStepFrame(u, input.angularSpeedUp, s);
      }
    }
    var r := ReadSpeed(input.forwardVelocity, s.maxSpeed);
    assert u.motion.speed == r.speed && u.motion.speedPercent == r.percent && u.motion.onReverse == r.reverse;
    assert u.contact.suspensionOffsets == WheelOffsets(input.wheels, s);
  }

  /** The on-ground phases leave the motion readings and the contact alone. */
  lemma GroundStepFrame(w: VehicleState, angularSpeedUp: real, s: Settings)
    requires s.maxSpeed != 0
    ensures GroundStep(w, angularSpeedUp, s).motion == w.motion
    ensures GroundStep(w, angularSpeedUp, s).contact == w.contact
  {
    var p := PropelStep(w, s);
    assert p.motion == w.motion && p.contact == w.contact;
  }

  /** After a valid tick a drift survives only on the ground with the
      accelerator held and the brake released. */
  lemma DriftNeedsGroundAndThrottle(v: VehicleState, input: TickInput, s: Settings)
    requires s.maxSpeed != 0 && input.isValid
    ensures var w := TickStep(v, input, s);
            w.drift.drifting ==> w.contact.onGround && w.controls.accelerating && !w.controls.braking
  {
    var u := Sensed(v, input, s);
    if u.contact.onGround {
      var p := PropelStep(u, s);
      assert p.drift.drifting ==> p.controls.accelerating && !p.controls.braking;
    }
  }

  /** In the air a valid tick applies no grip, no propulsion and no
      steering, ends any drift, and stabilises exactly when configured to. */
  lemma AirborneTick(v: VehicleState, input: TickInput, s: Settings)
    requires s.maxSpeed != 0 && input.isValid
    requires CountHits(input.wheels) < s.wheelsForOnGround
    ensures TickForces(v, input, s).Some?
    ensures var f := TickForces(v, input, s).value;
            && f.adherence == 0.0 && f.propulsion == NotApplied && f.steering == NotApplied
            && f.stabilize == s.stabilizeInAir
    ensures !TickStep(v, input, s).drift.drifting
  {
    var u := Sensed(v, input, s);
    assert !u.contact.onGround;
  }

  /** On the ground the propulsion of a valid tick is the brake force when
      braking (proportional to the input while moving forward) and no force
      when accelerating at or above max speed, where the reverse delay is
      also stopped. */
  lemma GroundTickPropulsion(v: VehicleState, input: TickInput, s: Settings)
    requires s.maxSpeed != 0 && input.isValid
    requires CountHits(input.wheels) >= s.wheelsForOnGround
    ensures var f := TickForces(v, input, s).value;
            var r := ReadSpeed(input.forwardVelocity, s.maxSpeed);
            && !f.stabilize
            && (v.controls.braking && r.speed > 0 ==>
                  f.propulsion == Applied(-(s.mass * s.brake * v.controls.brakingScale)))
            && (v.controls.accelerating && !v.controls.braking && r.speed >= s.maxSpeed ==>
                  f.propulsion == NotApplied && TickStep(v, input, s).force.reverseDelayTimer == -1.0)
  {
    var q := SenseStep(Prelude(v, input), input, s);
    var u := AdhereStep(SuspendStep(q, input.wheels, s), s);
    assert u == Sensed(v, input, s);
    assert u.contact.onGround && u.controls == v.controls && u.motion.speed == q.motion.speed;
    var f := TickForces(v, input, s).value;
    assert f.propulsion == Propulsion(u, s) && !f.stabilize;
    if v.controls.accelerating && !v.controls.braking {
      var p := PropelStep(u, s);
      assert TickStep(v, input, s) == TurnPhase(DriftPhase(p, s), input.angularSpeedUp, s);
    }
  }

  /** While a jump waits out its suspension delay no suspension force is
      applied and the jump goes on. */
  lemma JumpSuppressesSuspension(v: VehicleState, input: TickInput, s: Settings)
    requires s.maxSpeed != 0 && input.isValid
    requires v.contact.jumping && v.contact.jumpSuspensionTimer + input.deltaTime < s.jumpSuspensionDelay
    ensures TickForces(v, input, s).value.suspendedWheels == []
    ensures TickStep(v, input, s).contact.jumping
  {
    var u := Sensed(v, input, s);
    assert u.contact.jumping;
  }

  /** Once the delay has passed, a tick on the ground ends the jump and the
      wheels in contact receive their suspension force again. */
  lemma JumpEndsOnLanding(v: VehicleState, input: TickInput, s: Settings)
    requires s.maxSpeed != 0 && input.isValid
    requires v.contact.jumping && v.contact.jumpSuspensionTimer + input.deltaTime >= s.jumpSuspensionDelay
    requires CountHits(input.wheels) >= s.wheelsForOnGround
    ensures TickForces(v, input, s).value.suspendedWheels == HitIndices(input.wheels)
    ensures !TickStep(v, input, s).contact.jumping
  {
    var u := Sensed(v, input, s);
    assert !u.contact.jumping;
  }

  /** A tick only appends notifications, and a valid tick starts with the
      ground transition: one event per change of the ground flag, none
      otherwise. */
  lemma TickEventsAppend(v: VehicleState, input: TickInput, s: Settings)
    requires s.maxSpeed != 0
    ensures var w := TickStep(v, input, s);
            && v.events <= w.events
            && (input.isValid ==>
                  v.events + GroundEdge(v.contact.onGround, w.contact.onGround) <= w.events)
  {
    if input.isValid {
      var u := Sensed(v, input, s);
      var e := v.events + GroundEdge(v.contact.onGround, u.contact.onGround);
      assert e <= u.events;
      if u.contact.onGround {
        GroundStepEventsAppend(u, input.angularSpeedUp, s);
      }
    }
  }

  /** The on-ground phases only append notifications. */
  lemma GroundStepEventsAppend(w: VehicleState, angularSpeedUp: real, s: Settings)
    requires s.maxSpeed != 0
    ensures w.events <= GroundStep(w, angularSpeedUp, s).events
  {
    var p := PropelStep(w, s);
    assert w.events <= p.events;
    assert p.events <= DriftPhase(p, s).events;
  }

  // ---------------------------------------------------------------- runs of ticks

  /** The state after one tick per input, in order. */
  function Run(v: VehicleState, inputs: seq<TickInput>, s: Settings): VehicleState
    requires s.maxSpeed != 0
    decreases |inputs|
  {
    if inputs == [] then v else Run(TickStep(v, inputs[0], s), inputs[1..], s)
  }

  /** Any run of ticks with non-negative frame times keeps the state valid:
      accelerating and braking never both hold, a drift always has
      permission and a side, and the timers keep their sentinel shape. */
  lemma {:induction false} RunKeepsValid(v: VehicleState, inputs: seq<TickInput>, s: Settings)
    requires s.Valid() && StateValid(v, s)
    requires forall i :: 0 <= i < |inputs| ==> inputs[i].deltaTime >= 0.0
    ensures StateValid(Run(v, inputs, s), s)
    decreases |inputs|
  {
    if inputs != [] {
      TickKeepsValid(v, inputs[0], s);
      RunKeepsValid(TickStep(v, inputs[0], s), inputs[1..], s);
    }
  }

  /** Notifications are never taken back: the trace of a run extends the
      trace it started from. */
  lemma {:induction false} RunEventsAppend(v: VehicleState, inputs: seq<TickInput>, s: Settings)
    requires s.maxSpeed != 0
    ensures v.events <= Run(v, inputs, s).events
    decreases |inputs|
  {
    if inputs != [] {
      TickEventsAppend(v, inputs[0], s);
      RunEventsAppend(TickStep(v, inputs[0], s), inputs[1..], s);
    }
  }
}
