# ArcadeVS vehicle control and animator, in Dafny

This project models two parts of the ArcadeVS Unreal plugin.

- The arcade vehicle actor (`AArcadeVSVehicle`). This is its control and state layer:
  - the controller's input setters (accelerate, brake, drift, turn, stop, jump);
  - the per-frame tick: speed reading, turning envelope, ground check, stop detection, the jump/suspension gate, suspension offsets, adherence, braking and reverse, acceleration, the drift gate and steering.
- The animator component (`UArcadeVSAnimator`). Every frame it reads its vehicle and drives the animation blueprint:
  - the eased front-wheel angle and the wheel spin;
  - the suspension offsets and the drift side;
  - the damped tilt that restarts when a pedal is pressed, and the roll that follows the lateral slide.

Both stateful objects are classes whose methods update their fields step by step, as the C++ does. Each method is proved to leave exactly the state given by a pure function of the state before it. The lemmas state what those functions promise:
- over one tick;
- over runs of ticks (an invariant kept forever, notifications never taken back, the wheel easing settling on its target, the drift permission arriving exactly after the start delay, reverse starting exactly after the reverse delay).

Modules:

| file | module | contents |
|---|---|---|
| numeric.dfy | `Numeric` | C++ float-to-int truncation, `int / int`, `int % 360`, `FMath::Clamp`, `Option` |
| steering.dfy | `Steering` | the linear wheel-angle easing shared by the vehicle's turn setter and the animator |
| vehicle_rules.dfy | `VehicleRules` | settings and pure per-step rules of the vehicle, with their lemmas |
| vehicle_step.dfy | `VehicleStep` | the vehicle state as a value; every operation and tick phase as a function; the validity invariant |
| vehicle.dfy | `Vehicle` | class `ArcadeVehicle`: the actor's methods, in place |
| vehicle_props.dfy | `VehicleProps` | what the setters, a tick and runs of ticks promise |
| animator_rules.dfy | `AnimatorRules` | settings and pure rules of the animator (spin, drift side, tilt, roll) |
| animator_step.dfy | `AnimatorStep` | the animator state as a value, each update step and a whole tick as functions, and their lemmas |
| animator.dfy | `Animation` | class `Animator`: the component's methods, in place |

Conventions:
- Floats are modelled as exact reals; rounding is not modelled.
- Int members (`Speed`, `SpeedPercent`, `_maxSpeed`, `_wheelsMaxDirectionAngle`, the blueprint's `wheelRotation`, `wheelDirection` and `driftDirection`) are integers. Every float-to-int store truncates toward zero (`Trunc`). `Speed / _maxSpeed` is C++ integer division (`Quot`), and `% 360` keeps the dividend's sign (`Rem360`).
- The physics engine is replaced by a per-tick `TickInput`:
  - the frame time;
  - the local forward and lateral velocity;
  - the angular speed about the up axis;
  - whether a mesh is assigned;
  - one raycast sample per wheel.
- The forces and torques a tick hands to the engine are returned as magnitudes along the vehicle's own axes (`Forces`).
- Blueprint notifications (`OnStartAccelerate`, `OnStop`, `OnCanDriftStart` …) are appended to an `events` trace in the state.
- A new vehicle has the constructor's values, and the turning envelope that `BeginPlay` gives it (the at-min-speed angle). Members neither sets are taken as zero, as Unreal zero-fills objects.

In five places the code does not do what its own comments and its evident intent say. The model follows the code:
- **Turning envelope.** The header describes an angular velocity cap "at min speed" and another "at full speed" (`Plugins/ArcadeVS/Source/ArcadeVS/Public/ArcadeVSVehicle.h:238-245`), and `CalculateMaxTurningAngle` (`Plugins/ArcadeVS/Source/ArcadeVS/Private/ArcadeVSVehicle.cpp:434-435`) is written as a linear interpolation between them. But `Speed / _maxSpeed` divides two ints. The envelope is therefore the at-min-speed angle below max speed, and the at-full-speed angle from max speed up to twice max speed. It is a step function, not a linear interpolation (`TurningEnvelope`).
- **Acceleration falloff.** The comment at `Plugins/ArcadeVS/Source/ArcadeVS/Private/ArcadeVSVehicle.cpp:600` calls `FMath::Pow(speedRatio, 10)` a hardcoded curve that keeps the force from being too linear. Its result is discarded, and the integer speed ratio is 1 below max speed. The acceleration force therefore does not fall off with speed (`AccelerationForce`).
- **Reverse-speed cap.** The header says braking is ignored once the max reverse speed is reached (`Plugins/ArcadeVS/Source/ArcadeVS/Public/ArcadeVSVehicle.h:211`). But `Speed` is made non-negative before `Brake` reads it. The cap is only consulted at truncated speed 0, so a vehicle already reversing keeps being pushed backwards (`ReverseSpeedNotCapped`).
- **Refused drift request.** `SetDrift` returns early when the request matches the current state, evidently so that a repeated request notifies nothing. A drift request without permission still takes the "drift ended" branch. It fires `OnStopDrift` and restarts the recover timer, again on every request (`RefusedDriftRepeatsStop`).
- **Spin sign.** The animator picks the wheels' spin direction from `Speed > 0`, evidently to spin them backwards when reversing. `Speed` is a magnitude, so the sign says "moving", not "moving forward" (`SpinOutput`).

## Model

| member | source | states |
|---|---|---|
| Numeric.Trunc | Plugins/ArcadeVS/Source/ArcadeVS/Private/ArcadeVSVehicle.cpp:424-425 | a float stored into an int drops its fraction: the result's magnitude is within 1 below the value's, with the value's sign |
| Numeric.Quot | Plugins/ArcadeVS/Source/ArcadeVS/Private/ArcadeVSVehicle.cpp:435 | C++ `int / int` is the exact quotient truncated toward zero, and 0 for 0 <= a < b |
| Numeric.Rem360 | Plugins/ArcadeVS/Source/ArcadeVS/Private/ArcadeVSAnimator.cpp:153 | C++ `% 360` lies strictly within (-360, 360), keeps the dividend's sign and differs from it by a multiple of 360 |
| Numeric.Clamp | Plugins/ArcadeVS/Source/ArcadeVS/Private/ArcadeVSVehicle.cpp:344 | FMath::Clamp returns a value inside a well-formed range, is the identity inside it, and is always one of x, lo, hi |
| Numeric.ClampMonotone | Plugins/ArcadeVS/Source/ArcadeVS/Private/ArcadeVSVehicle.cpp:567 | clamping preserves order for a well-formed range |
| Steering.ChangeDuration | Plugins/ArcadeVS/Source/ArcadeVS/Private/ArcadeVSAnimator.cpp:111-112 | the wheel change duration is never negative, and is zero exactly when the neutral duration is zero or the angle does not change |
| Steering.Retarget | Plugins/ArcadeVS/Source/ArcadeVS/Private/ArcadeVSAnimator.cpp:105-113 | an unchanged target leaves the easing untouched; a new one restarts it from the current angle with timer 0 and the sweep's duration; the clocks stay non-negative |
| Steering.Advance | Plugins/ArcadeVS/Source/ArcadeVS/Private/ArcadeVSAnimator.cpp:119-130 | while the timer is short of the duration it advances by dt and the angle is the linear interpolation from the start to the target at the new timer, which lies between them as long as the new timer has not passed the duration; otherwise the angle snaps onto the target and both clocks reset |
| Steering.AdvanceOvershoots | Plugins/ArcadeVS/Source/ArcadeVS/Private/ArcadeVSAnimator.cpp:119-130 | the interpolation is not clamped: a tick that carries the timer past the duration leaves the angle outside the start-to-target range, and the next tick puts it on the target |
| Steering.AdvanceOvershootExample | Plugins/ArcadeVS/Source/ArcadeVS/Private/ArcadeVSAnimator.cpp:119-130 | a 0-to-35 degree change of 0.5 s, 0.3 s in, reaches 42 degrees after a further 0.3 s tick |
| Steering.EasedBetween | Plugins/ArcadeVS/Source/ArcadeVS/Private/ArcadeVSAnimator.cpp:121-123 | within the duration, the linear-easing angle lies between the previous angle and the target |
| Steering.AdvanceTicks | Plugins/ArcadeVS/Source/ArcadeVS/Private/ArcadeVSAnimator.cpp:119-130 | any number of ticks keeps the clocks non-negative and the target fixed |
| Steering.SettledStays | Plugins/ArcadeVS/Source/ArcadeVS/Private/ArcadeVSAnimator.cpp:125-130 | wheels on target with stopped clocks stay there for any number of ticks |
| Steering.EaseReachesTarget | Plugins/ArcadeVS/Source/ArcadeVS/Private/ArcadeVSAnimator.cpp:119-130 | the easing converges: once n-1 ticks cover the time left on the change, the angle is exactly the target |
| VehicleRules.Defaults | Plugins/ArcadeVS/Source/ArcadeVS/Private/ArcadeVSVehicle.cpp:31-115 | the constructor's tuning is usable (non-zero divisors, non-negative drift delay), turns less at full speed than at rest, has a well-formed suspension range and a drift adherence nerf in [0, 100]; its max reverse speed is 80 km/h (below max speed), its drift recover duration 1 s and its drift turning scale offset 0.3 |
| VehicleRules.SpeedToKmH | Plugins/ArcadeVS/Source/ArcadeVS/Private/ArcadeVSVehicle.cpp:120-126 | cm/s to km/h keeps the sign and never grows the magnitude |
| VehicleRules.SpeedToCmS | Plugins/ArcadeVS/Source/ArcadeVS/Private/ArcadeVSVehicle.cpp:128-131 | km/h to cm/s keeps the sign and never shrinks the magnitude |
| VehicleRules.ConversionRoundTrip | Plugins/ArcadeVS/Source/ArcadeVS/Private/ArcadeVSVehicle.cpp:120-131 | the two conversions are inverse only up to a factor 0.9972, within 0.3% |
| VehicleRules.ReadSpeed | Plugins/ArcadeVS/Source/ArcadeVS/Private/ArcadeVSVehicle.cpp:422-428 | Speed is the truncated km/h magnitude; reverse holds exactly at -1 km/h or below; the percentage is the truncated share of max speed, below 100 exactly below max speed |
| VehicleRules.ReadingFacts | Plugins/ArcadeVS/Source/ArcadeVS/Private/ArcadeVSVehicle.cpp:425 | the percentage computed from the signed speed equals the truncated percentage of its magnitude |
| VehicleRules.TurningEnvelope | Plugins/ArcadeVS/Source/ArcadeVS/Private/ArcadeVSVehicle.cpp:432-439 | below max speed the envelope is the at-min-speed angle, from max speed up to twice max speed it is the at-full-speed angle, plus the drift boost while drifting |
| VehicleRules.EnvelopeNonIncreasing | Plugins/ArcadeVS/Source/ArcadeVS/Private/ArcadeVSVehicle.cpp:434-435 | for a vehicle that turns less at full speed, the envelope never grows with speed |
| VehicleRules.EnvelopeDriftBoost | Plugins/ArcadeVS/Source/ArcadeVS/Private/ArcadeVSVehicle.cpp:437-438 | drifting widens the envelope by exactly the drift turning-angle boost |
| VehicleRules.CountHits | Plugins/ArcadeVS/Source/ArcadeVS/Private/ArcadeVSVehicle.cpp:462-469 | the wheels on the ground number at most the wheels |
| VehicleRules.CountHitsIsCardinality | Plugins/ArcadeVS/Source/ArcadeVS/Private/ArcadeVSVehicle.cpp:465-469 | the count equals the size of the set of wheels whose ray hit an actor |
| VehicleRules.HitIndices | Plugins/ArcadeVS/Source/ArcadeVS/Private/ArcadeVSVehicle.cpp:507-527 | the wheels receiving a suspension force are exactly the hit wheels, each once, in increasing order |
| VehicleRules.NoContactIsAirborne | Plugins/ArcadeVS/Source/ArcadeVS/Private/ArcadeVSVehicle.cpp:465-472 | with no wheel in contact, a vehicle needing at least one wheel down is off the ground |
| VehicleRules.GroundThresholdExample | Plugins/ArcadeVS/Source/ArcadeVS/Private/ArcadeVSVehicle.cpp:472 | two of four wheels down meet a threshold of two, one does not |
| VehicleRules.GroundEdge | Plugins/ArcadeVS/Source/ArcadeVS/Private/ArcadeVSVehicle.cpp:473-482 | landing fires OffGroundEnd, taking off fires OffGroundStart, no change fires nothing |
| VehicleRules.WheelOffset | Plugins/ArcadeVS/Source/ArcadeVS/Private/ArcadeVSVehicle.cpp:536-545 | a wheel offset lies in the configured range, is the compression when that is in range, and is fully extended (the minimum) without contact |
| VehicleRules.RecoverRatio | Plugins/ArcadeVS/Source/ArcadeVS/Private/ArcadeVSVehicle.cpp:567 | the grip recovery ratio lies in [0, 1], is 0 right after a drift, 1 once the recover duration has passed, and proportional in between |
| VehicleRules.RecoverRatioMonotone | Plugins/ArcadeVS/Source/ArcadeVS/Private/ArcadeVSVehicle.cpp:567 | grip comes back monotonically as the recover timer runs |
| VehicleRules.BaseGrip | Plugins/ArcadeVS/Source/ArcadeVS/Private/ArcadeVSVehicle.cpp:557-558 | the grip before drift effects: minus the lateral speed in km/h over max speed, times mass and adherence; zero without lateral velocity (its sign is stated by GripOpposesSlip) |
| VehicleRules.AdherenceForce | Plugins/ArcadeVS/Source/ArcadeVS/Private/ArcadeVSVehicle.cpp:549-571 | no grip in the air; on the ground, drifting, the base grip reduced by the nerf percentage, otherwise the base grip scaled by the recover ratio; so it never exceeds the base grip (drifting with a nerf in [0, 100] or recovering), is the full base grip once recovered, and zero right after a drift |
| VehicleRules.AdherenceOpposesSlip | Plugins/ArcadeVS/Source/ArcadeVS/Private/ArcadeVSVehicle.cpp:557-571 | the adherence force always points against the lateral velocity |
| VehicleRules.GripOpposesSlip | Plugins/ArcadeVS/Source/ArcadeVS/Private/ArcadeVSVehicle.cpp:557-558 | the base grip points against the lateral velocity |
| VehicleRules.AccelerationForce | Plugins/ArcadeVS/Source/ArcadeVS/Private/ArcadeVSVehicle.cpp:591-609 | no push at or above max speed; below it, mass × acceleration × input scale, with no falloff |
| VehicleRules.BrakeStep | Plugins/ArcadeVS/Source/ArcadeVS/Private/ArcadeVSVehicle.cpp:610-637 | moving forward brakes in proportion to the input; at speed 0 a stopped timer is started with no force; the rearward force is applied exactly once the timer has reached the delay and the speed is under the reverse cap |
| VehicleRules.AdvanceReverseTimer | Plugins/ArcadeVS/Source/ArcadeVS/Private/ArcadeVSVehicle.cpp:252-253 | a stopped reverse timer stays stopped; a running one never goes back |
| VehicleRules.StandstillBrakeRunning | Plugins/ArcadeVS/Source/ArcadeVS/Private/ArcadeVSVehicle.cpp:249-255 | braking at a standstill with a running timer: after n ticks the timer reads t + n·dt and reverse force is applied exactly once that reaches the delay |
| VehicleRules.ReverseAfterDelay | Plugins/ArcadeVS/Source/ArcadeVS/Private/ArcadeVSVehicle.cpp:612-631 | from a stopped timer, reverse begins exactly on the first tick on which (n-1)·dt has reached the delay before reverse, never on the first tick |
| VehicleRules.ReverseSpeedNotCapped | Plugins/ArcadeVS/Source/ArcadeVS/Private/ArcadeVSVehicle.cpp:612-636 | a vehicle whose speed magnitude is already beyond the reverse cap is still pushed backwards |
| VehicleRules.DriftCondition | Plugins/ArcadeVS/Source/ArcadeVS/Private/ArcadeVSVehicle.cpp:644-650 | defines the drift condition: speed percentage at least the drift minimum speed and turn input magnitude at least the drift minimum turning scale (DriftStep states what the gate does with it) |
| VehicleRules.DriftStep | Plugins/ArcadeVS/Source/ArcadeVS/Private/ArcadeVSVehicle.cpp:638-680 | nothing changes while drifting; otherwise the timer runs while fast and steering hard and stops when not, permission follows the timer reaching the delay, and the gate invariant is kept |
| VehicleRules.DriftStepsRunning | Plugins/ArcadeVS/Source/ArcadeVS/Private/ArcadeVSVehicle.cpp:652-664 | with the condition held and the timer running, n calls add n·dt and permission holds exactly when the delay is reached |
| VehicleRules.SustainedDriftEligibility | Plugins/ArcadeVS/Source/ArcadeVS/Private/ArcadeVSVehicle.cpp:644-664 | from a stopped timer, drifting is allowed after n calls exactly when (n-1)·dt has reached the drift delay |
| VehicleRules.CanDriftEdge | Plugins/ArcadeVS/Source/ArcadeVS/Private/ArcadeVSVehicle.cpp:673-676 | each change of drift permission fires one event, no change fires none |
| VehicleRules.DriftSteer | Plugins/ArcadeVS/Source/ArcadeVS/Private/ArcadeVSVehicle.cpp:363-376 | while drifting the turn input is held on the drift side and pushed further toward it |
| VehicleRules.SteeringTorque | Plugins/ArcadeVS/Source/ArcadeVS/Private/ArcadeVSVehicle.cpp:682-700 | torque is applied exactly at 5 km/h or more, within the envelope and with some input; its size is the turning force times the input, inverted in reverse |
| VehicleRules.ReverseSteersOpposite | Plugins/ArcadeVS/Source/ArcadeVS/Private/ArcadeVSVehicle.cpp:694-698 | reversing steers the other way: the torque has the input's sign forward and the opposite sign in reverse |
| VehicleStep.InitialState | Plugins/ArcadeVS/Source/ArcadeVS/Private/ArcadeVSVehicle.cpp:31-115 | a new vehicle is on the ground, not drifting, without drift permission and with no notification; it is valid whenever the drift delay is non-negative, and, for a positive max speed, its turning envelope is the one for speed 0 |
| VehicleStep.AccelerateInput | Plugins/ArcadeVS/Source/ArcadeVS/Private/ArcadeVSVehicle.cpp:285-298 | SetAccelerate as a value: it touches only the pedals and their scales (never the turn input, motion, contact, drift or forces) and only appends notifications (AccelerateInputExclusive states the rest) |
| VehicleStep.BrakeInput | Plugins/ArcadeVS/Source/ArcadeVS/Private/ArcadeVSVehicle.cpp:299-312 | SetBrake as a value, with the same frame as AccelerateInput (BrakeInputExclusive states the rest) |
| VehicleStep.DriftRequest | Plugins/ArcadeVS/Source/ArcadeVS/Private/ArcadeVSVehicle.cpp:313-333 | SetDrift as a value: only the drift flag, side and recover timer change; the vehicle drifts only if asked to; notifications are only appended (DriftRequestGated states the rest) |
| VehicleStep.TurnInput | Plugins/ArcadeVS/Source/ArcadeVS/Private/ArcadeVSVehicle.cpp:334-351 | defines the stored turn input: the raw input, or its drift-side value while drifting (TurnInputHoldsDriftSide states what this guarantees) |
| VehicleStep.Released | Plugins/ArcadeVS/Source/ArcadeVS/Private/ArcadeVSVehicle.cpp:713-722 | Stop as a value: SetDrift(false), SetAccelerate(0), SetBrake(0) and a centred turn input; motion, contact, forces and the drift gate are untouched and notifications are only appended (StopReleasesAll states the rest) |
| VehicleStep.JumpRequest | Plugins/ArcadeVS/Source/ArcadeVS/Private/ArcadeVSVehicle.cpp:701-712 | defines the jump start: when enabled and not jumping, the jump and its suspension timer start (JumpStartsDelay states it) |
| VehicleStep.Prelude | Plugins/ArcadeVS/Source/ArcadeVS/Private/ArcadeVSVehicle.cpp:192-201 | what every tick does first: it sets the frame time, runs the recover timer, clears the acceleration force and changes nothing else |
| VehicleStep.SenseStep | Plugins/ArcadeVS/Source/ArcadeVS/Private/ArcadeVSVehicle.cpp:207-224 | the sensing phase: the speed reading, the turning envelope for the new speed, the wheel count of the samples, on the ground exactly when the count reaches the threshold, stopped exactly under 1 cm/s; pedals, drift, forces and the jump are untouched and at most two notifications are appended |
| VehicleStep.SuspensionApplies | Plugins/ArcadeVS/Source/ArcadeVS/Private/ArcadeVSVehicle.cpp:226-238 | defines the jump gate: the suspension applies unless a jump is under way and its timer, advanced by this frame, is still short of the delay |
| VehicleStep.WheelOffsets | Plugins/ArcadeVS/Source/ArcadeVS/Private/ArcadeVSVehicle.cpp:530-547 | one offset per wheel, in wheel order |
| VehicleStep.SuspendStep | Plugins/ArcadeVS/Source/ArcadeVS/Private/ArcadeVSVehicle.cpp:226-243 | the offsets become WheelOffsets of the samples; the hit wheels get the suspension force exactly when the gate applies, otherwise the previous list stays; a jump is never started here; nothing outside the contact changes |
| VehicleStep.AdhereStep | Plugins/ArcadeVS/Source/ArcadeVS/Private/ArcadeVSVehicle.cpp:549-577 | only the adherence force changes: zero in the air, and never larger in magnitude than the base grip for a nerf in [0, 100] |
| VehicleStep.BrakeOf | Plugins/ArcadeVS/Source/ArcadeVS/Private/ArcadeVSVehicle.cpp:610-637 | moving forward, the proportional brake force; at speed 0 with the timer stopped, the timer starts at 0 with no force; a running timer is advanced by the frame time before Brake reads it |
| VehicleStep.PropelStep | Plugins/ArcadeVS/Source/ArcadeVS/Private/ArcadeVSVehicle.cpp:247-264 | braking stores the reverse timer of BrakeOf; accelerating stops the reverse timer and keeps the drift and the notifications; a drift survives only with the accelerator held and the brake released; pedals, motion, contact and adherence are untouched |
| VehicleStep.Propulsion | Plugins/ArcadeVS/Source/ArcadeVS/Private/ArcadeVSVehicle.cpp:591-637 | the force handed to the engine: the brake force when braking, none when coasting or at max speed, else mass × acceleration × input scale, times the drift compensation while drifting |
| VehicleStep.DriftPhase | Plugins/ArcadeVS/Source/ArcadeVS/Private/ArcadeVSVehicle.cpp:638-680 | the drift gate step: the drift flag, side and recover timer are kept, a drifting vehicle keeps its whole gate, and exactly the permission edge is notified |
| VehicleStep.Steer | Plugins/ArcadeVS/Source/ArcadeVS/Private/ArcadeVSVehicle.cpp:682-700 | torque is applied exactly at 5 km/h or more, within the envelope and with some input, and is the turning force times the input, inverted in reverse |
| VehicleStep.TurnPhase | Plugins/ArcadeVS/Source/ArcadeVS/Private/ArcadeVSVehicle.cpp:682-700 | only the turning flag and the turn input change: the flag says whether torque was applied, and the input is inverted exactly when it was applied in reverse |
| VehicleStep.GroundStep | Plugins/ArcadeVS/Source/ArcadeVS/Private/ArcadeVSVehicle.cpp:247-268 | the on-ground phases in order; a drift after them was on before, with the accelerator held and the brake released; pedals and adherence are untouched (GroundStepFrame states the rest of the frame) |
| VehicleStep.Sensed | Plugins/ArcadeVS/Source/ArcadeVS/Private/ArcadeVSVehicle.cpp:192-244 | the state once sensing, the jump gate, the offsets and the adherence are done: pedals untouched, only the recover timer of the drift state advanced, the frame time set, and the adherence force AdherenceForce of the new ground flag and lateral velocity |
| VehicleStep.TickStep | Plugins/ArcadeVS/Source/ArcadeVS/Private/ArcadeVSVehicle.cpp:192-278 | one tick as a value: without a mesh only the Prelude; the frame time is always set; a tick never starts a drift |
| VehicleStep.TickForces | Plugins/ArcadeVS/Source/ArcadeVS/Private/ArcadeVSVehicle.cpp:192-278 | the forces a tick hands to the engine: none exactly without a mesh; otherwise the adherence of the sensed state and a suspension force for no wheel or exactly the hit wheels |
| VehicleStep.DriftRequestKeepsValid | Plugins/ArcadeVS/Source/ArcadeVS/Private/ArcadeVSVehicle.cpp:313-333 | a drift request keeps the state invariant |
| VehicleStep.SensedKeepsValid | Plugins/ArcadeVS/Source/ArcadeVS/Private/ArcadeVSVehicle.cpp:195-244 | sensing, the suspension and the adherence keep the invariant and set the frame time |
| VehicleStep.GroundStepKeepsValid | Plugins/ArcadeVS/Source/ArcadeVS/Private/ArcadeVSVehicle.cpp:247-268 | the on-ground phases keep the invariant |
| VehicleStep.TickKeepsValid | Plugins/ArcadeVS/Source/ArcadeVS/Private/ArcadeVSVehicle.cpp:192-278 | a tick keeps the invariant: flags match their inputs, not both pedals, a drift has permission and a side, the sentinel timers are stopped or running |
| Vehicle.ArcadeVehicle.constructor | Plugins/ArcadeVS/Source/ArcadeVS/Private/ArcadeVSVehicle.cpp:31-115 | a new actor is valid: on the ground, no input, drift and recover timers stopped at -1, the turning envelope at its at-min-speed angle (which `BeginPlay` sets, ArcadeVSVehicle.cpp:163), zeroed wheel easing |
| Vehicle.ArcadeVehicle.View | Plugins/ArcadeVS/Source/ArcadeVS/Private/ArcadeVSAnimator.cpp:84-229 | the members the animator reads: a non-negative speed, a non-zero max speed, a drift side that is non-zero exactly while drifting and within [-1, 1], and never both pedals |
| Vehicle.ArcadeVehicle.SetAccelerate | Plugins/ArcadeVS/Source/ArcadeVS/Private/ArcadeVSVehicle.cpp:285-298 | performs AccelerateInput in place; it keeps the invariant, and a release restores it even from both pedals on |
| Vehicle.ArcadeVehicle.SetBrake | Plugins/ArcadeVS/Source/ArcadeVS/Private/ArcadeVSVehicle.cpp:299-312 | performs BrakeInput in place; it keeps the invariant, and a release restores it even from both pedals on |
| Vehicle.ArcadeVehicle.SetDrift | Plugins/ArcadeVS/Source/ArcadeVS/Private/ArcadeVSVehicle.cpp:313-333 | performs DriftRequest in place and keeps the invariant |
| Vehicle.ArcadeVehicle.SetTurn | Plugins/ArcadeVS/Source/ArcadeVS/Private/ArcadeVSVehicle.cpp:334-362 | stores the turn input (held on the drift side while drifting) and retargets the wheel easing to input × max wheel angle |
| Vehicle.ArcadeVehicle.ApplyDriftTurnChanges | Plugins/ArcadeVS/Source/ArcadeVS/Private/ArcadeVSVehicle.cpp:363-376 | replaces the stored turn input by its drift-side value and changes nothing else |
| Vehicle.ArcadeVehicle.Stop | Plugins/ArcadeVS/Source/ArcadeVS/Private/ArcadeVSVehicle.cpp:713-722 | performs Released in place and keeps the invariant |
| Vehicle.ArcadeVehicle.Jump | Plugins/ArcadeVS/Source/ArcadeVS/Private/ArcadeVSVehicle.cpp:701-712 | an impulse of jump force × mass is returned exactly when jumping is enabled and no jump is under way, which then starts the jump and its suspension delay |
| Vehicle.ArcadeVehicle.CalculateSpeedAndDirection | Plugins/ArcadeVS/Source/ArcadeVS/Private/ArcadeVSVehicle.cpp:414-431 | stores the velocities and the ReadSpeed reading, nothing else |
| Vehicle.ArcadeVehicle.CalculateMaxTurningAngle | Plugins/ArcadeVS/Source/ArcadeVS/Private/ArcadeVSVehicle.cpp:432-439 | stores the turning envelope for the current speed and drift, nothing else |
| Vehicle.ArcadeVehicle.GroundCheck | Plugins/ArcadeVS/Source/ArcadeVS/Private/ArcadeVSVehicle.cpp:459-484 | stores the hit count and the ground flag and fires the ground edge |
| Vehicle.ArcadeVehicle.DetectStop | Plugins/ArcadeVS/Source/ArcadeVS/Private/ArcadeVSVehicle.cpp:213-224 | fires OnStop once when the forward velocity drops under 1 cm/s and re-arms when it rises |
| Vehicle.ArcadeVehicle.JumpSuspensionGate | Plugins/ArcadeVS/Source/ArcadeVS/Private/ArcadeVSVehicle.cpp:226-238 | during a jump the suspension is off until the delay has passed, and the jump ends on the first tick on the ground after it |
| Vehicle.ArcadeVehicle.ApplySuspension | Plugins/ArcadeVS/Source/ArcadeVS/Private/ArcadeVSVehicle.cpp:499-528 | the wheels receiving a suspension force are exactly the hit wheels, in order |
| Vehicle.ArcadeVehicle.ComputeSuspensionOffsets | Plugins/ArcadeVS/Source/ArcadeVS/Private/ArcadeVSVehicle.cpp:530-547 | rebuilds the offsets list as WheelOffsets of the samples |
| Vehicle.ArcadeVehicle.ApplyAdherence | Plugins/ArcadeVS/Source/ArcadeVS/Private/ArcadeVSVehicle.cpp:549-577 | stores AdherenceForce, nothing else |
| Vehicle.ArcadeVehicle.Accelerate | Plugins/ArcadeVS/Source/ArcadeVS/Private/ArcadeVSVehicle.cpp:591-609 | stops the reverse timer, stores the acceleration force, and returns it scaled by the drift compensation while drifting |
| Vehicle.ArcadeVehicle.Brake | Plugins/ArcadeVS/Source/ArcadeVS/Private/ArcadeVSVehicle.cpp:610-637 | updates the reverse timer and returns the force of BrakeStep |
| Vehicle.ArcadeVehicle.Drift | Plugins/ArcadeVS/Source/ArcadeVS/Private/ArcadeVSVehicle.cpp:638-680 | performs DriftPhase: the drift gate step and its permission events |
| Vehicle.ArcadeVehicle.Turn | Plugins/ArcadeVS/Source/ArcadeVS/Private/ArcadeVSVehicle.cpp:682-700 | returns the steering torque, sets the turning flag to whether one was applied, and inverts the stored input when it was applied in reverse |
| Vehicle.ArcadeVehicle.Propel | Plugins/ArcadeVS/Source/ArcadeVS/Private/ArcadeVSVehicle.cpp:249-264 | brake (ending the drift, running the reverse timer), else accelerate, else coast (ending the drift) |
| Vehicle.ArcadeVehicle.Sense | Plugins/ArcadeVS/Source/ArcadeVS/Private/ArcadeVSVehicle.cpp:208-224 | performs SenseStep: speed, envelope, ground check, stop edge |
| Vehicle.ArcadeVehicle.Suspend | Plugins/ArcadeVS/Source/ArcadeVS/Private/ArcadeVSVehicle.cpp:226-243 | performs SuspendStep and reports whether the suspension was applied |
| Vehicle.ArcadeVehicle.GroundPhase | Plugins/ArcadeVS/Source/ArcadeVS/Private/ArcadeVSVehicle.cpp:247-268 | performs GroundStep and returns its propulsion and steering |
| Vehicle.ArcadeVehicle.Tick | Plugins/ArcadeVS/Source/ArcadeVS/Private/ArcadeVSVehicle.cpp:192-278 | performs TickStep in place, returns TickForces, and keeps the invariant |
| VehicleProps.AccelerateInputExclusive | Plugins/ArcadeVS/Source/ArcadeVS/Private/ArcadeVSVehicle.cpp:285-298 | the accelerator flag is scale > 0.05; starting to accelerate releases the brake; never both pedals; each flag change fires its event exactly once; no change only stores the scale |
| VehicleProps.BrakeInputExclusive | Plugins/ArcadeVS/Source/ArcadeVS/Private/ArcadeVSVehicle.cpp:299-312 | the brake flag is scale > 0.05; starting to brake releases the accelerator; never both pedals; each flag change fires its event exactly once |
| VehicleProps.DriftRequestGated | Plugins/ArcadeVS/Source/ArcadeVS/Private/ArcadeVSVehicle.cpp:313-333 | a request equal to the current state changes nothing; a drift that is on was allowed and asked for; a differing request fires one event; a granted request starts the drift toward the steered side with the recover timer stopped and fires OnStartDrift; releasing a drift ends it with side 0, restarts the recover timer at 0 and fires OnStopDrift |
| VehicleProps.RefusedDriftRepeatsStop | Plugins/ArcadeVS/Source/ArcadeVS/Private/ArcadeVSVehicle.cpp:315-332 | a drift request without permission leaves the vehicle not drifting, fires OnStopDrift and restarts the recover timer, and does so again on every repeat |
| VehicleProps.TurnInputHoldsDriftSide | Plugins/ArcadeVS/Source/ArcadeVS/Private/ArcadeVSVehicle.cpp:334-351 | the turn setter touches only the turn input: the raw input when not drifting, otherwise within [-1, 0] or [0, 1] on the drift side |
| VehicleProps.StopReleasesAll | Plugins/ArcadeVS/Source/ArcadeVS/Private/ArcadeVSVehicle.cpp:713-722 | Stop leaves no drift, no pedal, zero scales and a centred turn input, and keeps the invariant |
| VehicleProps.JumpStartsDelay | Plugins/ArcadeVS/Source/ArcadeVS/Private/ArcadeVSVehicle.cpp:701-712 | Jump starts the jump and its suspension timer when enabled and not jumping, regardless of ground or speed, else changes nothing |
| VehicleProps.InvalidTickOnlyAdvancesTimers | Plugins/ArcadeVS/Source/ArcadeVS/Private/ArcadeVSVehicle.cpp:192-201 | a tick without a mesh returns no forces and only sets the frame time, runs the recover timer and clears the acceleration force |
| VehicleProps.TickReadsInputs | Plugins/ArcadeVS/Source/ArcadeVS/Private/ArcadeVSVehicle.cpp:207-243 | after a valid tick the speed reading, stop flag, wheel count, ground flag and offsets are those the inputs dictate |
| VehicleProps.GroundStepFrame | Plugins/ArcadeVS/Source/ArcadeVS/Private/ArcadeVSVehicle.cpp:247-268 | the on-ground phases change neither the motion readings nor the contact |
| VehicleProps.DriftNeedsGroundAndThrottle | Plugins/ArcadeVS/Source/ArcadeVS/Private/ArcadeVSVehicle.cpp:247-277 | after a valid tick a drift survives only on the ground, with the accelerator held and the brake released |
| VehicleProps.AirborneTick | Plugins/ArcadeVS/Source/ArcadeVS/Private/ArcadeVSVehicle.cpp:269-277 | in the air no grip, propulsion or steering is applied, any drift ends, and stabilisation runs exactly when enabled |
| VehicleProps.GroundTickPropulsion | Plugins/ArcadeVS/Source/ArcadeVS/Private/ArcadeVSVehicle.cpp:247-268 | on the ground, braking while moving forward applies the proportional brake force; accelerating at max speed applies nothing and stops the reverse timer |
| VehicleProps.JumpSuppressesSuspension | Plugins/ArcadeVS/Source/ArcadeVS/Private/ArcadeVSVehicle.cpp:226-241 | before the jump-suspension delay has passed no suspension force is applied and the jump goes on |
| VehicleProps.JumpEndsOnLanding | Plugins/ArcadeVS/Source/ArcadeVS/Private/ArcadeVSVehicle.cpp:226-241 | after the delay, a grounded tick ends the jump and the hit wheels get their suspension force again |
| VehicleProps.TickEventsAppend | Plugins/ArcadeVS/Source/ArcadeVS/Private/ArcadeVSVehicle.cpp:192-278 | a tick only appends notifications, starting with the ground transition |
| VehicleProps.GroundStepEventsAppend | Plugins/ArcadeVS/Source/ArcadeVS/Private/ArcadeVSVehicle.cpp:247-268 | the on-ground phases only append notifications |
| VehicleProps.RunKeepsValid | Plugins/ArcadeVS/Source/ArcadeVS/Private/ArcadeVSVehicle.cpp:192-278 | any run of ticks with non-negative frame times keeps the invariant |
| VehicleProps.RunEventsAppend | Plugins/ArcadeVS/Source/ArcadeVS/Private/ArcadeVSVehicle.cpp:192-278 | over any run the notification trace only grows |
| AnimatorRules.AnimatorDefaults | Plugins/ArcadeVS/Source/ArcadeVS/Private/ArcadeVSAnimator.cpp:16-48 | the component's defaults are usable, tilt forward on acceleration and backward on braking, roll non-negatively, and do not scale tilt with speed |
| AnimatorRules.WheelPerimeter | Plugins/ArcadeVS/Source/ArcadeVS/Private/ArcadeVSAnimator.cpp:143 | the perimeter is positive for a positive radius and zero exactly for a zero radius |
| AnimatorRules.FrameDistance | Plugins/ArcadeVS/Source/ArcadeVS/Private/ArcadeVSAnimator.cpp:145 | the distance travelled in a frame is never negative |
| AnimatorRules.SpinAngle | Plugins/ArcadeVS/Source/ArcadeVS/Private/ArcadeVSAnimator.cpp:140-151 | the spin angle resets at speed 0 and never decreases while the vehicle moves |
| AnimatorRules.SpinOutput | Plugins/ArcadeVS/Source/ArcadeVS/Private/ArcadeVSAnimator.cpp:137-154 | the blueprint's spin is within one turn, congruent modulo 360 to the truncated angle, zero for a zero angle, and negated while moving |
| AnimatorRules.SpinGrowsLinearly | Plugins/ArcadeVS/Source/ArcadeVS/Private/ArcadeVSAnimator.cpp:140-147 | at a constant speed the spin angle grows by the same step every frame |
| AnimatorRules.DriftIndicator | Plugins/ArcadeVS/Source/ArcadeVS/Private/ArcadeVSAnimator.cpp:163-174 | the drift side shown is 0 exactly when not drifting, else 1 for right and -1 for left |
| AnimatorRules.Pressed | Plugins/ArcadeVS/Source/ArcadeVS/Private/ArcadeVSAnimator.cpp:84-91 | defines a pedal press: the pedal is down now, was not at the last tick, and the vehicle is on the ground (RearmOnlyOnPress states its consequence) |
| AnimatorRules.RearmOnlyOnPress | Plugins/ArcadeVS/Source/ArcadeVS/Private/ArcadeVSAnimator.cpp:84-91 | a tilt restart is armed exactly by pressing a pedal on the ground; holding, releasing or pressing in the air leaves it as it was |
| AnimatorRules.TiltRestarts | Plugins/ArcadeVS/Source/ArcadeVS/Private/ArcadeVSAnimator.cpp:182 | defines when the tilt restarts: a restart is pending and the blueprint's tilt is under 0.1 degrees (TickTiltRestart states its effect) |
| AnimatorRules.SpeedDiffRatio | Plugins/ArcadeVS/Source/ArcadeVS/Private/ArcadeVSAnimator.cpp:179 | the speed ratio is 1 at rest and within [0, 1] for speeds up to max speed |
| AnimatorRules.OscSpeed | Plugins/ArcadeVS/Source/ArcadeVS/Private/ArcadeVSAnimator.cpp:190-194 | a restarted tilt oscillates at the pedal's speed scaled by the ratio, held within [5, 10] |
| AnimatorRules.AxisScale | Plugins/ArcadeVS/Source/ArcadeVS/Private/ArcadeVSAnimator.cpp:196-203 | the restart follows the accelerator's pressure, else the brake's, else the remembered one |
| AnimatorRules.TiltValue | Plugins/ArcadeVS/Source/ArcadeVS/Private/ArcadeVSAnimator.cpp:218-221 | the published tilt is amplitude × wave, times the speed ratio when the scaling setting is on; it is zero for a zero amplitude or wave, and for a zero ratio when scaling (TiltBounded bounds it) |
| AnimatorRules.TiltBounded | Plugins/ArcadeVS/Source/ArcadeVS/Private/ArcadeVSAnimator.cpp:218-223 | with a wave within [-1, 1] and a ratio in [0, 1] the tilt never exceeds its amplitude |
| AnimatorRules.Slip | Plugins/ArcadeVS/Source/ArcadeVS/Private/ArcadeVSAnimator.cpp:229-230 | the wheel slip lies in [-1, 1] and has the lateral velocity's sign |
| AnimatorRules.Roll | Plugins/ArcadeVS/Source/ArcadeVS/Private/ArcadeVSAnimator.cpp:229-233 | the roll never exceeds max roll angle × roll scale |
| AnimatorRules.RollUnclamped | Plugins/ArcadeVS/Source/ArcadeVS/Private/ArcadeVSAnimator.cpp:231-233 | for a non-negative max roll the outer clamp never bites: roll is max roll × slip × scale |
| AnimatorRules.RollFollowsSlip | Plugins/ArcadeVS/Source/ArcadeVS/Private/ArcadeVSAnimator.cpp:229-233 | the vehicle leans with the slide: the roll has the lateral velocity's sign |
| AnimatorStep.InitialAnimator | Plugins/ArcadeVS/Source/ArcadeVS/Private/ArcadeVSAnimator.cpp:16-48 | a new component has no pending tilt restart, running clocks and a zero pose |
| AnimatorStep.WheelTarget | Plugins/ArcadeVS/Source/ArcadeVS/Private/ArcadeVSAnimator.cpp:105 | defines the wheels' target angle: turn input × max wheel direction angle (WheelTargetBound bounds it) |
| AnimatorStep.WheelTargetBound | Plugins/ArcadeVS/Source/ArcadeVS/Private/ArcadeVSAnimator.cpp:105 | a turn input in [-1, 1] aims the wheels no further than the max direction angle, and a zero input aims them straight |
| AnimatorStep.EdgeStep | Plugins/ArcadeVS/Source/ArcadeVS/Private/ArcadeVSAnimator.cpp:84-94 | remembers the vehicle's pedals and arms the restart exactly as Rearmed says |
| AnimatorStep.WheelsDirectionStep | Plugins/ArcadeVS/Source/ArcadeVS/Private/ArcadeVSAnimator.cpp:103-132 | the wheels head for the turn input's angle, keep running clocks, and the blueprint gets the truncated eased angle |
| AnimatorStep.WheelsRotationStep | Plugins/ArcadeVS/Source/ArcadeVS/Private/ArcadeVSAnimator.cpp:134-155 | the published spin is within one turn and both the angle and the spin are zero at rest |
| AnimatorStep.SuspensionsStep | Plugins/ArcadeVS/Source/ArcadeVS/Private/ArcadeVSAnimator.cpp:157-161 | the blueprint gets the vehicle's suspension offsets and nothing else changes |
| AnimatorStep.DriftDirectionStep | Plugins/ArcadeVS/Source/ArcadeVS/Private/ArcadeVSAnimator.cpp:163-174 | the blueprint's drift side is 0 exactly when not drifting, else 1 for right and -1 for left, and nothing else changes |
| AnimatorStep.Restarted | Plugins/ArcadeVS/Source/ArcadeVS/Private/ArcadeVSAnimator.cpp:186-207 | defines the restart: amplitude = the pedal's max tilt angle × the axis scale, the OscSpeed oscillation, the pedal's damping, the clock at 0 and the pending restart consumed (TickTiltRestart states these through a tick) |
| AnimatorStep.TiltAfter | Plugins/ArcadeVS/Source/ArcadeVS/Private/ArcadeVSAnimator.cpp:182-210 | defines the tilt update: the restart when TiltRestarts holds, with the clock then advanced by the frame; otherwise only the clock advances (TickTiltRestart states both cases) |
| AnimatorStep.TiltRollStep | Plugins/ArcadeVS/Source/ArcadeVS/Private/ArcadeVSAnimator.cpp:176-234 | only the tilt values and the published tilt and roll change; the wheels, the remembered pedals and the rest of the pose are untouched (TiltRollBounded bounds the tilt) |
| AnimatorStep.AnimatorTick | Plugins/ArcadeVS/Source/ArcadeVS/Private/ArcadeVSAnimator.cpp:74-101 | a tick keeps the wheel clocks non-negative |
| AnimatorStep.TickPublishesVehicle | Plugins/ArcadeVS/Source/ArcadeVS/Private/ArcadeVSAnimator.cpp:74-101 | inactive or unlinked, nothing changes; active, the pedals are remembered and the blueprint gets the vehicle's offsets, drift side and roll |
| AnimatorStep.TickWheelPose | Plugins/ArcadeVS/Source/ArcadeVS/Private/ArcadeVSAnimator.cpp:96-97 | an active tick retargets and eases the wheels once, publishes their truncated angle, and a spin within one turn (zero at rest) |
| AnimatorStep.TickTiltRestart | Plugins/ArcadeVS/Source/ArcadeVS/Private/ArcadeVSAnimator.cpp:84-210 | a restart stays pending exactly when armed and the tilt is not yet under 0.1; a restart restarts the clock with the OscSpeed oscillation (in [5, 10]), the AxisScale pressure, an amplitude of the pedal's max tilt angle × that pressure and the pedal's damping; otherwise the clock runs on with the tilt values kept |
| AnimatorStep.AnimatorTicks | Plugins/ArcadeVS/Source/ArcadeVS/Private/ArcadeVSAnimator.cpp:74-101 | any number of ticks keeps the wheel clocks non-negative |
| AnimatorStep.TicksFollowEasing | Plugins/ArcadeVS/Source/ArcadeVS/Private/ArcadeVSAnimator.cpp:103-132 | once aimed at the turn input's angle, ticks ease the wheels exactly as the shared easing and publish the truncated angle |
| AnimatorStep.TicksRetargetOnce | Plugins/ArcadeVS/Source/ArcadeVS/Private/ArcadeVSAnimator.cpp:103-132 | a steady view retargets the wheels once and then eases them tick after tick |
| AnimatorStep.WheelsSettle | Plugins/ArcadeVS/Source/ArcadeVS/Private/ArcadeVSAnimator.cpp:103-132 | with a steady turn input the published wheel direction settles on the truncated target angle once the change's duration is covered |
| AnimatorStep.TiltLimit | Plugins/ArcadeVS/Source/ArcadeVS/Private/ArcadeVSAnimator.cpp:189 | the bound covers both pedals' tilt angles |
| AnimatorStep.TickTiltBounded | Plugins/ArcadeVS/Source/ArcadeVS/Private/ArcadeVSAnimator.cpp:176-223 | with pedal pressures in [0, 1], speed within max speed and a bounded wave, the published tilt never exceeds the larger pedal angle, and the bound carries to the next tick |
| AnimatorStep.TiltRollBounded | Plugins/ArcadeVS/Source/ArcadeVS/Private/ArcadeVSAnimator.cpp:176-223 | UpdateTiltAndRoll keeps the remembered and published tilt within the pedals' angles |
| AnimatorStep.RestartWithin | Plugins/ArcadeVS/Source/ArcadeVS/Private/ArcadeVSAnimator.cpp:186-207 | a restart picks an amplitude within the pedals' angles and a pressure in [0, 1] |
| Animation.Animator.constructor | Plugins/ArcadeVS/Source/ArcadeVS/Private/ArcadeVSAnimator.cpp:16-48 | a new component is active and in the initial state |
| Animation.Animator.SetActive | Plugins/ArcadeVS/Source/ArcadeVS/Public/ArcadeVSAnimator.h:93-95 | (de)activation sets the active flag |
| Animation.Animator.TickComponent | Plugins/ArcadeVS/Source/ArcadeVS/Private/ArcadeVSAnimator.cpp:74-101 | inactive or unlinked, nothing changes; otherwise the fields become AnimatorTick of the old ones, and the frame's traveled distance is returned when moving |
| Animation.Animator.UpdateWheelsDirection | Plugins/ArcadeVS/Source/ArcadeVS/Private/ArcadeVSAnimator.cpp:103-132 | performs WheelsDirectionStep in place |
| Animation.Animator.UpdateWheelsRotation | Plugins/ArcadeVS/Source/ArcadeVS/Private/ArcadeVSAnimator.cpp:134-155 | performs WheelsRotationStep in place and returns the distance travelled when moving |
| Animation.Animator.UpdateWheelsSuspensions | Plugins/ArcadeVS/Source/ArcadeVS/Private/ArcadeVSAnimator.cpp:157-161 | performs SuspensionsStep in place |
| Animation.Animator.UpdateDriftDirection | Plugins/ArcadeVS/Source/ArcadeVS/Private/ArcadeVSAnimator.cpp:163-174 | performs DriftDirectionStep in place |
| Animation.Animator.UpdateTiltAndRoll | Plugins/ArcadeVS/Source/ArcadeVS/Private/ArcadeVSAnimator.cpp:176-234 | performs TiltRollStep in place |

## Left out

- Physics engine calls are not modelled. The forces, torques and impulses are returned as magnitudes along the vehicle's axes, not as world vectors or application points. This covers gravity, suspension spring force magnitudes, stabilisation torques and the damping and centre-of-mass setters. The traction offset and `_accelerationForce`'s direction are left out too.
- `ApplyGravity`, `Stabilize`, `ShootSuspensionRayCasts`, `UpdateAccelerationDirection` and `RegisterWheelBones` are replaced by the per-tick `TickInput` (raycast samples, velocities), because they only talk to the engine. The suspension spring force magnitude (vehicle cpp 501-521) is left out for the same reason. Only which wheels receive it is modelled.
- `_disableLinearDampingInAir` only changes an engine damping setter, so it is not modelled.
- The tilt's damped sine `Exp(-c t) · Sin(w t)` is the function parameter `wave(damping, oscSpeed, t)`, because transcendental functions are not available over reals.
- Floats are exact reals. Rounding, overflow of `Speed * 1000` and NaN are not modelled.
- `IsValid` becomes the `isValid` field of the tick input. It checks that a mesh is assigned and fetches the anim instance.
- `BeginPlay` is engine glue (wheel bones, physics set-up, mass override), so only its one control-state effect, the initial turning envelope, is modelled (in `InitialState`). `DisplayDebug`, the component visualizer, the player controller and the module startup are engine glue, so they are not modelled. The animator's BeginPlay outcome is the constant `linked`.
- The animator's `_directionChanged` member is set and never read, so it is not modelled.
- `_previousSpeedInCms` and `_speedInCms` are never read by the control layer, so they are not modelled.
- `Animation.Animator.TickComponent` returns the frame's traveled distance instead of storing it into the vehicle's `_lastFrameTraveledDistance`, which the control layer only displays.
- `AnimatorStep.ViewUsable` is required by `Animation.Animator.TickComponent`. It demands three things of the vehicle:
  - a non-negative frame time, because the engine never passes a negative one;
  - a non-zero max speed, because the code divides by `_maxSpeed` (ArcadeVSAnimator.cpp:179 and 229), and a float division by zero has no counterpart over reals;
  - a non-zero wheel radius while moving, because the code divides by the perimeter (ArcadeVSAnimator.cpp:146).
- `AnimatorStep.TickTiltBounded` assumes the wave parameter is within [-1, 1]. This holds for the damped sine with non-negative damping and time, which the model does not compute.
- `Vehicle.ArcadeVehicle.Tick` requires a non-negative frame time. The engine never passes a negative one.
- The vehicle and animator tuning are constant fields. Editing them in the editor during play is not modelled.
- The vehicle's own copy of the wheel easing is retargeted by `SetTurn`, but nothing in the core eases it. The animator's copy is the one the blueprint sees. Both use `Steering`.
