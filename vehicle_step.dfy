/** The vehicle's control state as a value, and every operation of the
    vehicle as a function from the state before it to the state after it.
    The class in `Vehicle` performs these operations in place, step by step
    as the actor does, and each of its methods is proved to produce exactly
    the state given here. A tick is the composition of its phases, in the
    order the actor runs them. */
module VehicleStep {
  import opened Numeric
  import opened VehicleRules

  /** What the physics engine reports at the start of a tick. */
  datatype TickInput = TickInput(
    deltaTime: real,
    forwardVelocity: real,   // local X, cm/s
    lateralVelocity: real,   // local Y, cm/s
    angularSpeedUp: real,    // about the up axis, degrees per second
    isValid: bool,           // a skeletal mesh is assigned
    wheels: seq<WheelSample>)

  /** The forces a valid tick hands to the physics engine, as magnitudes
      along the vehicle's own axes. */
  datatype Forces = Forces(
    adherence: real,              // along the right axis
    propulsion: Applied,          // along the forward axis (negative: rearward)
    steering: Applied,            // torque about the up axis
    suspendedWheels: seq<nat>,    // wheels receiving a suspension force
    stabilize: bool)              // airborne stabilising torques are applied

  /** The driver's inputs as the controller last set them. */
  datatype Controls = Controls(
    accelerating: bool,
    braking: bool,
    turning: bool,             // a steering torque was applied this tick
    turningScale: real,
    accelerationScale: real,
    brakingScale: real)

  /** What the vehicle last read of its own motion. */
  datatype Motion = Motion(
    deltaTime: real,
    forwardVelocity: real,
    lateralVelocity: real,
    speed: int,                // truncated km/h, never negative
    speedPercent: int,
    onReverse: bool,
    stopped: bool,
    maxTurningAngle: real)

  /** Ground contact, the suspension and the jump. */
  datatype Contact = Contact(
    onGround: bool,
    nbWheelsOnGround: int,
    jumping: bool,
    jumpSuspensionTimer: real,
    suspensionForceWheels: seq<nat>,
    suspensionOffsets: seq<real>)

  /** The drift: whether it is on and to which side, the timer toward
      permission, the permission, and the time since the last drift ended. */
  datatype DriftState = DriftState(
    drifting: bool,
    driftDirection: int,       // -1 left, 1 right, 0 not drifting
    driftTimer: real,
    canDrift: bool,
    driftRecoverTimer: real)

  /** The stored forces and the reverse-delay timer. */
  datatype ForceState = ForceState(
    adherenceForce: real,
    accelerationForce: real,
    reverseDelayTimer: real)

  /** The actor's member variables read and written by its control layer,
      grouped as above (the visual wheel easing is kept apart, see
      `Steering`), and the Blueprint notifications sent so far. */
  datatype VehicleState = VehicleState(
    controls: Controls,
    motion: Motion,
    contact: Contact,
    drift: DriftState,
    force: ForceState,
    events: seq<Event>)

  /** A new actor once play has begun: on the ground, no input, the drift
      and recover timers stopped, the turning envelope at its at-rest
      angle; the members neither the constructor nor `BeginPlay` set are
      zero. */
  function InitialState(s: Settings): (v: VehicleState)
    ensures v.contact.onGround && !v.drift.drifting && !v.drift.canDrift && v.events == []
    ensures s.driftDelay >= 0.0 ==> StateValid(v, s)
    ensures s.maxSpeed > 0 ==> v.motion.maxTurningAngle == TurningEnvelope(v.motion.speed, false, s)
  {
    VehicleState(
      Controls(false, false, false, 0.0, 0.0, 0.0),
      Motion(0.0, 0.0, 0.0, 0, 0, false, false, s.maxTurningAngleAtMinSpeed),
      Contact(true, 0, false, 0.0, [], []),
      DriftState(false, 0, -1.0, false, -1.0),
      ForceState(0.0, 0.0, 0.0),
      [])
  }

  /** Flags agree with their input scales; a drift needs permission and
      has a side; the -1 sentinel timers are either stopped or running. */
  predicate StateConsistent(v: VehicleState, s: Settings)
  {
    && v.controls.accelerating == (v.controls.accelerationScale > 0.05)
    && v.controls.braking == (v.controls.brakingScale > 0.05)
    && (v.drift.drifting ==> v.drift.canDrift)
    && (v.drift.drifting <==> v.drift.driftDirection != 0)
    && -1 <= v.drift.driftDirection <= 1
    && DriftGate(v.drift.driftTimer, v.drift.canDrift).Valid(s.driftDelay)
    && (v.force.reverseDelayTimer == -1.0 || v.force.reverseDelayTimer >= 0.0)
    && v.contact.jumpSuspensionTimer >= 0.0
    && v.motion.speed >= 0 && v.motion.speedPercent >= 0
  }

  /** A consistent state in which accelerating and braking exclude each other. */
  predicate StateValid(v: VehicleState, s: Settings)
  {
    StateConsistent(v, s) && !(v.controls.accelerating && v.controls.braking)
  }

  // ---------------------------------------------------------------- input setters

  /** SetAccelerate: store the scale; when the flag (scale > 0.05) changes,
      notify, and on starting to accelerate release the brake. */
  function AccelerateInput(v: VehicleState, scale: real): (w: VehicleState)
    ensures w.motion == v.motion && w.contact == v.contact && w.drift == v.drift && w.force == v.force
    ensures w.controls.turningScale == v.controls.turningScale && w.controls.turning == v.controls.turning
    ensures v.events <= w.events
    decreases if scale > 0.05 then 1 else 0
  {
    var on := scale > 0.05;
    if v.controls.accelerating == on then v.(controls := v.controls.(accelerationScale := scale))
    else
      var w := v.(controls := v.controls.(accelerationScale := scale, accelerating := on),
                  events := v.events + [if on then StartAccelerate else StopAccelerate]);
      if on then BrakeInput(w, 0.0) else w
  }

  /** SetBrake: store the scale; when the flag (scale > 0.05) changes,
      notify, and on starting to brake release the accelerator. */
  function BrakeInput(v: VehicleState, scale: real): (w: VehicleState)
    ensures w.motion == v.motion && w.contact == v.contact && w.drift == v.drift && w.force == v.force
    ensures w.controls.turningScale == v.controls.turningScale && w.controls.turning == v.controls.turning
    ensures v.events <= w.events
    decreases if scale > 0.05 then 1 else 0
  {
    var on := scale > 0.05;
    if v.controls.braking == on then v.(controls := v.controls.(brakingScale := scale))
    else
      var w := v.(controls := v.controls.(brakingScale := scale, braking := on),
                  events := v.events + [if on then StartBrake else StopBrake]);
      if on then AccelerateInput(w, 0.0) else w
  }

  /** SetDrift: a request equal to the current state is ignored; otherwise
      the vehicle drifts only if allowed to, toward the side it steers to,
      and either outcome resets the recover timer and is notified. */
  function DriftRequest(v: VehicleState, value: bool): (w: VehicleState)
    ensures w.controls == v.controls && w.motion == v.motion && w.contact == v.contact && w.force == v.force
    ensures w.drift.canDrift == v.drift.canDrift && w.drift.driftTimer == v.drift.driftTimer
    ensures w.drift.drifting ==> value
    ensures v.events <= w.events
  {
    if v.drift.drifting == value then v
    else
      var on := value && v.drift.canDrift;
      v.(drift := v.drift.(drifting := on,
                           driftDirection := if !on then 0 else if v.controls.turningScale > 0.0 then 1 else -1,
                           driftRecoverTimer := if on then -1.0 else 0.0),
         events := v.events + [if on then StartDrift else StopDrift])
  }

  /** SetTurn (state part): the stored turn input, pushed toward the drift
      side while drifting. */
  function TurnInput(v: VehicleState, scale: real, s: Settings): VehicleState
  {
    var t := if v.drift.drifting then DriftSteer(scale, v.drift.driftDirection, s.driftTurningScaleOffset) else scale;
    v.(controls := v.controls.(turningScale := t))
  }

  /** Stop: release drift, accelerator and brake, and centre the turn input. */
  function Released(v: VehicleState): (w: VehicleState)
    ensures w.motion == v.motion && w.contact == v.contact && w.force == v.force
    ensures w.drift.canDrift == v.drift.canDrift && w.drift.driftTimer == v.drift.driftTimer
    ensures v.events <= w.events
  {
    var w := BrakeInput(AccelerateInput(DriftRequest(v, false), 0.0), 0.0);
    w.(controls := w.controls.(turningScale := 0.0))
  }

  /** Jump (state part): when enabled and not already jumping, start the
      jump and its suspension delay. */
  function JumpRequest(v: VehicleState, s: Settings): VehicleState
  {
    if s.jumpEnabled && !v.contact.jumping then v.(contact := v.contact.(jumping := true, jumpSuspensionTimer := 0.0))
    else v
  }

  // ---------------------------------------------------------------- tick phases

  /** The timers every tick advances, valid vehicle or not. */
  function Prelude(v: VehicleState, input: TickInput): (w: VehicleState)
    ensures w.controls == v.controls && w.contact == v.contact && w.events == v.events
    ensures w.motion == v.motion.(deltaTime := input.deltaTime)
    ensures w.drift == v.drift.(driftRecoverTimer := v.drift.driftRecoverTimer + input.deltaTime)
    ensures w.force == v.force.(accelerationForce := 0.0)
  {
    v.(motion := v.motion.(deltaTime := input.deltaTime),
       drift := v.drift.(driftRecoverTimer := v.drift.driftRecoverTimer + input.deltaTime),
       force := v.force.(accelerationForce := 0.0))
  }

  /** Speed and direction, turning envelope, ground check, stop detection. */
  function SenseStep(v: VehicleState, input: TickInput, s: Settings): (w: VehicleState)
    requires s.maxSpeed != 0
    ensures w.controls == v.controls && w.drift == v.drift && w.force == v.force
    ensures w.motion.deltaTime == v.motion.deltaTime
    ensures w.motion.speed == ReadSpeed(input.forwardVelocity, s.maxSpeed).speed
    ensures w.motion.maxTurningAngle == TurningEnvelope(w.motion.speed, v.drift.drifting, s)
    ensures w.motion.stopped <==> input.forwardVelocity < 1.0
    ensures w.contact.nbWheelsOnGround == CountHits(input.wheels)
    ensures w.contact.onGround <==> CountHits(input.wheels) >= s.wheelsForOnGround
    ensures w.contact.jumping == v.contact.jumping && w.contact.jumpSuspensionTimer == v.contact.jumpSuspensionTimer
    ensures v.events <= w.events && |w.events| <= |v.events| + 2
  {
    var r := ReadSpeed(input.forwardVelocity, s.maxSpeed);
    var n := CountHits(input.wheels);
    var grounded := n >= s.wheelsForOnGround;
    var halted := input.forwardVelocity < 1.0;
    v.(motion := v.motion.(forwardVelocity := input.forwardVelocity, lateralVelocity := input.lateralVelocity,
                           speed := r.speed, speedPercent := r.percent, onReverse := r.reverse,
                           maxTurningAngle := TurningEnvelope(r.speed, v.drift.drifting, s), stopped := halted),
       contact := v.contact.(nbWheelsOnGround := n, onGround := grounded),
       events := v.events + GroundEdge(v.contact.onGround, grounded)
                 + (if halted && !v.motion.stopped then [Event.Stop] else []))
  }

  /** The visual suspension offset of every wheel, in order. */
  function WheelOffsets(wheels: seq<WheelSample>, s: Settings): (r: seq<real>)
    ensures |r| == |wheels|
    ensures forall i :: 0 <= i < |wheels| ==> r[i] == WheelOffset(wheels[i], s)
  {
    seq(|wheels|, i requires 0 <= i < |wheels| => WheelOffset(wheels[i], s))
  }

  /** Whether the suspension forces are applied this tick: always, except
      during a jump until the jump-suspension delay has passed. */
  predicate SuspensionApplies(v: VehicleState, s: Settings)
  {
    !v.contact.jumping || v.contact.jumpSuspensionTimer + v.motion.deltaTime >= s.jumpSuspensionDelay
  }

  /** The jump gate, the wheels receiving a suspension force, the offsets. */
  function SuspendStep(v: VehicleState, wheels: seq<WheelSample>, s: Settings): (w: VehicleState)
    ensures w.controls == v.controls && w.motion == v.motion && w.drift == v.drift && w.force == v.force
    ensures w.events == v.events
    ensures w.contact.onGround == v.contact.onGround && w.contact.nbWheelsOnGround == v.contact.nbWheelsOnGround
    ensures w.contact.suspensionOffsets == WheelOffsets(wheels, s)
    ensures SuspensionApplies(v, s) ==> w.contact.suspensionForceWheels == HitIndices(wheels)
    ensures !SuspensionApplies(v, s) ==> w.contact.suspensionForceWheels == v.contact.suspensionForceWheels
    ensures !v.contact.jumping ==> !w.contact.jumping && w.contact.jumpSuspensionTimer == v.contact.jumpSuspensionTimer
    ensures w.contact.jumping ==> v.contact.jumping
  {
    var c := v.contact;
    var timer := c.jumpSuspensionTimer + (if c.jumping then v.motion.deltaTime else 0.0);
    v.(contact := c.(jumpSuspensionTimer := timer,
                     jumping := c.jumping && !(timer >= s.jumpSuspensionDelay && c.onGround),
                     suspensionForceWheels := if SuspensionApplies(v, s) then HitIndices(wheels) else c.suspensionForceWheels,
                     suspensionOffsets := WheelOffsets(wheels, s)))
  }

  /** The lateral grip force. */
  function AdhereStep(v: VehicleState, s: Settings): (w: VehicleState)
    requires s.maxSpeed != 0
    ensures w == v.(force := v.force.(adherenceForce := w.force.adherenceForce))
    ensures !v.contact.onGround ==> w.force.adherenceForce == 0.0
    ensures 0.0 <= s.driftAdherenceNerf <= 100.0 ==> Abs(w.force.adherenceForce) <= Abs(BaseGrip(v.motion.lateralVelocity, s))
  {
    var f := AdherenceForce(v.contact.onGround, v.drift.drifting, v.motion.lateralVelocity, v.drift.driftRecoverTimer, s);
    v.(force := v.force.(adherenceForce := f))
  }

  /** The brake outcome of this tick, from the reverse-delay timer as it
      stands once the tick's time is added to a running timer. */
  function BrakeOf(v: VehicleState, s: Settings): (o: BrakeOutcome)
    ensures v.motion.speed > 0 ==> o.force == Applied(-(s.mass * s.brake * v.controls.brakingScale))
    ensures v.motion.speed <= 0 && v.force.reverseDelayTimer == -1.0 ==> o == BrakeOutcome(0.0, NotApplied)
    ensures v.motion.speed <= 0 && v.force.reverseDelayTimer >= 0.0 && v.motion.deltaTime >= 0.0 ==>
              o.reverseTimer == v.force.reverseDelayTimer + v.motion.deltaTime
  {
    BrakeStep(v.motion.speed, AdvanceReverseTimer(v.force.reverseDelayTimer, v.motion.deltaTime), v.controls.brakingScale, s)
  }

  /** On the ground: brake (ending any drift), else accelerate, else coast
      (ending any drift). */
  function PropelStep(v: VehicleState, s: Settings): (w: VehicleState)
    requires s.maxSpeed != 0
    ensures w.controls == v.controls && w.motion == v.motion && w.contact == v.contact
    ensures w.force.adherenceForce == v.force.adherenceForce
    ensures w.drift.drifting ==> v.drift.drifting && v.controls.accelerating && !v.controls.braking
    ensures v.controls.braking ==> w.force.reverseDelayTimer == BrakeOf(v, s).reverseTimer
    ensures !v.controls.braking && v.controls.accelerating ==>
              w.drift == v.drift && w.events == v.events && w.force.reverseDelayTimer == -1.0
    ensures v.events <= w.events
  {
    if v.controls.braking then
      var w := DriftRequest(v, false);
      w.(force := w.force.(reverseDelayTimer := BrakeOf(v, s).reverseTimer))
    else if v.controls.accelerating then
      var f := AccelerationForce(v.motion.speed, v.controls.accelerationScale, s);
      v.(force := v.force.(reverseDelayTimer := -1.0,
                           accelerationForce := if f.Applied? then f.amount else v.force.accelerationForce))
    else DriftRequest(v, false)
  }

  /** The propulsion force of an on-ground tick; while drifting the
      acceleration is scaled by the drift compensation. */
  function Propulsion(v: VehicleState, s: Settings): (p: Applied)
    requires s.maxSpeed != 0
    ensures v.controls.braking ==> p == BrakeOf(v, s).force
    ensures !v.controls.braking && (!v.controls.accelerating || v.motion.speed >= s.maxSpeed) ==> p == NotApplied
    ensures !v.controls.braking && v.controls.accelerating && 0 <= v.motion.speed < s.maxSpeed ==>
              var compensation := if v.drift.drifting then s.driftAccelerationCompensation else 1.0;
              p == Applied(s.mass * s.acceleration * v.controls.accelerationScale * compensation)
  {
    if v.controls.braking then BrakeOf(v, s).force
    else if v.controls.accelerating then
      var f := AccelerationForce(v.motion.speed, v.controls.accelerationScale, s);
      var compensation := if v.drift.drifting then s.driftAccelerationCompensation else 1.0;
      if f.Applied? then Applied(f.amount * compensation) else NotApplied
    else NotApplied
  }

  /** The drift timer and permission, with each change of permission notified. */
  function DriftPhase(v: VehicleState, s: Settings): (w: VehicleState)
    ensures w.controls == v.controls && w.motion == v.motion && w.contact == v.contact && w.force == v.force
    ensures w.drift.drifting == v.drift.drifting && w.drift.driftDirection == v.drift.driftDirection
    ensures w.drift.driftRecoverTimer == v.drift.driftRecoverTimer
    ensures w.events == v.events + CanDriftEdge(v.drift.canDrift, w.drift.canDrift)
    ensures v.drift.drifting ==> w.drift == v.drift
  {
    var d := v.drift;
    var g := DriftStep(DriftGate(d.driftTimer, d.canDrift), d.drifting, v.motion.speedPercent,
                       v.controls.turningScale, v.motion.deltaTime, s);
    v.(drift := d.(driftTimer := g.timer, canDrift := g.canDrift), events := v.events + CanDriftEdge(d.canDrift, g.canDrift))
  }

  /** The steering torque of an on-ground tick. */
  function Steer(v: VehicleState, angularSpeedUp: real, s: Settings): (t: Applied)
    ensures t.Applied? <==>
              Abs(v.motion.speed as real) >= 5.0 && Abs(angularSpeedUp) <= v.motion.maxTurningAngle
              && v.controls.turningScale != 0.0
    ensures t.Applied? ==>
              t.amount == s.turningForce * (if v.motion.onReverse then -v.controls.turningScale else v.controls.turningScale)
  {
    SteeringTorque(v.motion.speed, angularSpeedUp, v.motion.maxTurningAngle, v.controls.turningScale,
                   v.motion.onReverse, s.turningForce)
  }

  /** Turning: the flag tells whether a torque is applied, and applying it
      while reversing inverts the stored turn input. */
  function TurnPhase(v: VehicleState, angularSpeedUp: real, s: Settings): (w: VehicleState)
    ensures w == v.(controls := v.controls.(turning := w.controls.turning, turningScale := w.controls.turningScale))
    ensures w.controls.turning == Steer(v, angularSpeedUp, s).Applied?
    ensures w.controls.turning && v.motion.onReverse ==> w.controls.turningScale == -v.controls.turningScale
    ensures !(w.controls.turning && v.motion.onReverse) ==> w.controls.turningScale == v.controls.turningScale
  {
    var t := Steer(v, angularSpeedUp, s);
    var c := v.controls;
    v.(controls := c.(turning := t.Applied?, turningScale := if t.Applied? && v.motion.onReverse then -c.turningScale else c.turningScale))
  }

  /** The on-ground part of a tick: propel, drift gate, turn. */
  function GroundStep(v: VehicleState, angularSpeedUp: real, s: Settings): (w: VehicleState)
    requires s.maxSpeed != 0
    ensures w.drift.drifting ==> v.drift.drifting && v.controls.accelerating && !v.controls.braking
    ensures w.controls.accelerating == v.controls.accelerating && w.controls.braking == v.controls.braking
    ensures w.force.adherenceForce == v.force.adherenceForce
  {
    TurnPhase(DriftPhase(PropelStep(v, s), s), angularSpeedUp, s)
  }

  /** The state once sensing, the suspension and the adherence are done. */
  function Sensed(v: VehicleState, input: TickInput, s: Settings): (w: VehicleState)
    requires s.maxSpeed != 0
    ensures w.controls == v.controls
    ensures w.drift == v.drift.(driftRecoverTimer := v.drift.driftRecoverTimer + input.deltaTime)
    ensures w.motion.deltaTime == input.deltaTime
    ensures w.force.adherenceForce
            == AdherenceForce(w.contact.onGround, v.drift.drifting, input.lateralVelocity, w.drift.driftRecoverTimer, s)
  {
    AdhereStep(SuspendStep(SenseStep(Prelude(v, input), input, s), input.wheels, s), s)
  }

  /** The state after one tick. */
  function TickStep(v: VehicleState, input: TickInput, s: Settings): (w: VehicleState)
    requires s.maxSpeed != 0
    ensures !input.isValid ==> w == Prelude(v, input)
    ensures w.motion.deltaTime == input.deltaTime
    ensures w.drift.drifting ==> v.drift.drifting
  {
    if !input.isValid then Prelude(v, input)
    else
      var w := Sensed(v, input, s);
      if w.contact.onGround then GroundStep(w, input.angularSpeedUp, s) else DriftRequest(w, false)
  }

  /** The forces one tick hands to the physics engine (none for an invalid
      vehicle). */
  function TickForces(v: VehicleState, input: TickInput, s: Settings): (f: Option<Forces>)
    requires s.maxSpeed != 0
    ensures f.None? <==> !input.isValid
    ensures f.Some? ==> f.value.adherence == Sensed(v, input, s).force.adherenceForce
    ensures f.Some? ==> f.value.suspendedWheels == [] || f.value.suspendedWheels == HitIndices(input.wheels)
  {
    if !input.isValid then None
    else
      var w := Sensed(v, input, s);
      var applies := SuspensionApplies(SenseStep(Prelude(v, input), input, s), s);
      Some(Forces(w.force.adherenceForce,
                  if w.contact.onGround then Propulsion(w, s) else NotApplied,
                  if w.contact.onGround then Steer(DriftPhase(PropelStep(w, s), s), input.angularSpeedUp, s) else NotApplied,
                  if applies then HitIndices(input.wheels) else [],
                  !w.contact.onGround && s.stabilizeInAir))
  }

  // ---------------------------------------------------------------- invariant

  /** Ending a drift, or asking for one, keeps the state valid. */
  lemma DriftRequestKeepsValid(v: VehicleState, value: bool, s: Settings)
    requires StateValid(v, s)
    ensures StateValid(DriftRequest(v, value), s)
  {
  }

  /** Sensing, the suspension and the adherence keep the state valid and
      leave the frame time as set. */
  lemma SensedKeepsValid(v: VehicleState, input: TickInput, s: Settings)
    requires s.Valid() && StateValid(v, s) && input.deltaTime >= 0.0
    ensures StateValid(Sensed(v, input, s), s)
    ensures Sensed(v, input, s).motion.deltaTime == input.deltaTime
  {
  }

  /** The on-ground phases keep the state valid. */
  lemma GroundStepKeepsValid(w: VehicleState, angularSpeedUp: real, s: Settings)
    requires s.Valid() && StateValid(w, s) && w.motion.deltaTime >= 0.0
    ensures StateValid(GroundStep(w, angularSpeedUp, s), s)
  {
    var p := PropelStep(w, s);
    if w.controls.braking {
      DriftRequestKeepsValid(w, false, s);
    }
    assert StateValid(p, s);
  }

  /** A tick keeps the state valid. */
  lemma TickKeepsValid(v: VehicleState, input: TickInput, s: Settings)
    requires s.Valid() && StateValid(v, s) && input.deltaTime >= 0.0
    ensures StateValid(TickStep(v, input, s), s)
  {
    if input.isValid {
      SensedKeepsValid(v, input, s);
      var w := Sensed(v, input, s);
      if w.contact.onGround {
        GroundStepKeepsValid(w, input.angularSpeedUp, s);
      } else {
        DriftRequestKeepsValid(w, false, s);
      }
    }
  }
}
