/** The per-tick rules of the arcade vehicle, as pure functions over values:
    speed quantisation, the turning envelope, ground sensing, visual
    suspension offsets, adherence, propulsion, the drift gate and the drift
    steering offset. The `ArcadeVehicle` class (vehicle.dfy) updates its
    fields step by step and is proved against these functions; the lemmas
    here state what the rules promise over one or many ticks. */
module VehicleRules {
  import opened Numeric

  /** Tuning of one vehicle (the editable properties of the vehicle actor). */
  datatype Settings = Settings(
    maxSpeed: int,                          // km/h
    acceleration: real,
    brake: real,
    mass: real,
    delayBeforeReverse: real,               // seconds
    maxReverseSpeed: real,                  // km/h
    wheelsForOnGround: int,
    wheelsMaxDirectionAngle: int,           // degrees
    wheelsRotationToNeutralDuration: real,  // seconds
    maxTurningAngleAtMinSpeed: real,        // degrees per second
    maxTurningAngleAtFullSpeed: real,
    turningForce: real,
    targetSuspensionHeight: real,
    minSuspensionOffset: real,
    maxSuspensionOffset: real,
    adherence: real,
    driftMinSpeed: real,                    // percent of max speed
    driftMinTurningScale: real,
    driftDelay: real,                       // seconds
    driftTurningAngleBoost: real,
    driftAccelerationCompensation: real,
    driftRecoverDuration: real,
    driftTurningScaleOffset: real,
    driftAdherenceNerf: real,               // percent
    jumpEnabled: bool,
    jumpForce: real,
    jumpSuspensionDelay: real,
    stabilizeInAir: bool)
  {
    /** The two divisors are nonzero and the drift start delay is within its
        editor range (it is never negative). */
    predicate Valid()
    {
      maxSpeed != 0 && wheelsMaxDirectionAngle != 0 && driftDelay >= 0.0
    }
  }

  /** The values the vehicle's constructor gives its tuning properties. */
  function Defaults(): (s: Settings)
    ensures s.Valid()
    ensures s.maxSpeed > 0 && s.maxTurningAngleAtFullSpeed <= s.maxTurningAngleAtMinSpeed
    ensures s.minSuspensionOffset <= s.maxSuspensionOffset
    ensures 0.0 < s.maxReverseSpeed < s.maxSpeed as real
    ensures s.driftRecoverDuration > 0.0 && 0.0 < s.driftTurningScaleOffset < 1.0
    ensures 0.0 <= s.driftAdherenceNerf <= 100.0
    ensures s.maxReverseSpeed == 80.0 && s.driftRecoverDuration == 1.0 && s.driftTurningScaleOffset == 0.3
  {
    Settings(
      maxSpeed := 160, acceleration := 4000.0, brake := 2000.0, mass := 100.0,
      delayBeforeReverse := 0.4, maxReverseSpeed := 80.0, wheelsForOnGround := 1,
      wheelsMaxDirectionAngle := 35, wheelsRotationToNeutralDuration := 0.5,
      maxTurningAngleAtMinSpeed := 50.0, maxTurningAngleAtFullSpeed := 40.0, turningForce := 300.0,
      targetSuspensionHeight := 80.0, minSuspensionOffset := -2.0, maxSuspensionOffset := 10.0,
      adherence := 15000.0,
      driftMinSpeed := 60.0, driftMinTurningScale := 0.9, driftDelay := 0.0,
      driftTurningAngleBoost := 35.0, driftAccelerationCompensation := 0.8,
      driftRecoverDuration := 1.0, driftTurningScaleOffset := 0.3, driftAdherenceNerf := 25.0,
      jumpEnabled := true, jumpForce := 1000.0, jumpSuspensionDelay := 0.2, stabilizeInAir := true)
  }

  /** The vehicle's Blueprint notifications. */
  datatype Event =
    | StartAccelerate | StopAccelerate
    | StartBrake | StopBrake
    | StartDrift | StopDrift
    | CanDriftStart | CanDriftEnd
    | Jump            // declared, never fired by the vehicle
    | Stop
    | OffGroundStart | OffGroundEnd

  /** One raycast result: whether the ray under a wheel hit an actor, and how far. */
  datatype WheelSample = WheelSample(hit: bool, distance: real)

  // ---------------------------------------------------------------- units

  /** cm/s to km/h. */
  function SpeedToKmH(v: real): (r: real)
    ensures (r < 0.0 <==> v < 0.0) && (r == 0.0 <==> v == 0.0)
    ensures Abs(r) <= Abs(v)
  {
    v * 0.036
  }

  /** km/h to cm/s (unused by the vehicle and the animator). */
  function SpeedToCmS(v: real): (r: real)
    ensures (r < 0.0 <==> v < 0.0) && (r == 0.0 <==> v == 0.0)
    ensures Abs(v) <= Abs(r)
  {
    v * 27.7
  }

  /** The two conversions are inverse only up to 0.28%: 27.7 stands for 1/0.036. */
  lemma ConversionRoundTrip(v: real)
    ensures SpeedToCmS(SpeedToKmH(v)) == v * 0.9972
    ensures Abs(SpeedToCmS(SpeedToKmH(v)) - v) <= Abs(v) * 0.003
  {
  }

  // ---------------------------------------------------------------- speed

  /** `Speed` (truncated km/h, made non-negative), `SpeedPercent` and the
      reverse flag as computed from the local forward velocity. */
  datatype SpeedReading = SpeedReading(speed: int, percent: int, reverse: bool)

  function ReadSpeed(forward: real, maxSpeed: int): (r: SpeedReading)
    requires maxSpeed != 0
    ensures r.speed >= 0 && r.percent >= 0
    ensures r.speed as real <= Abs(SpeedToKmH(forward)) < r.speed as real + 1.0
    ensures r.reverse <==> SpeedToKmH(forward) <= -1.0
    ensures r.percent == Trunc(r.speed as real * 100.0 / IntAbs(maxSpeed) as real)
    ensures r.speed < IntAbs(maxSpeed) ==> r.percent < 100
    ensures r.speed >= IntAbs(maxSpeed) ==> r.percent >= 100
  {
    ReadingFacts(Trunc(SpeedToKmH(forward)), maxSpeed);
    SpeedReading(IntAbs(Trunc(SpeedToKmH(forward))),
                 IntAbs(Trunc(Trunc(SpeedToKmH(forward)) as real / maxSpeed as real * 100.0)),
                 Trunc(SpeedToKmH(forward)) < 0)
  }

  /** The percentage computed from the signed speed is the truncated
      percentage of the speed's magnitude. */
  lemma ReadingFacts(signed: int, maxSpeed: int)
    requires maxSpeed != 0
    ensures IntAbs(Trunc(signed as real / maxSpeed as real * 100.0))
            == Trunc(IntAbs(signed) as real * 100.0 / IntAbs(maxSpeed) as real)
    ensures IntAbs(signed) < IntAbs(maxSpeed) ==> IntAbs(Trunc(signed as real / maxSpeed as real * 100.0)) < 100
    ensures IntAbs(signed) >= IntAbs(maxSpeed) ==> IntAbs(Trunc(signed as real / maxSpeed as real * 100.0)) >= 100
  {
    var q := signed as real / maxSpeed as real;
    TruncAbs(q * 100.0);
    QuotientMagnitude(signed, maxSpeed);
    assert Abs(q * 100.0) == Abs(q) * 100.0;
    DivScale(IntAbs(signed) as real, IntAbs(maxSpeed) as real, 100.0);
    assert Abs(q * 100.0) == IntAbs(signed) as real * 100.0 / IntAbs(maxSpeed) as real;
    PercentBelowHundred(IntAbs(signed), IntAbs(maxSpeed));
  }

  lemma PercentBelowHundred(speed: nat, m: nat)
    requires m > 0
    ensures speed < m ==> Trunc(speed as real * 100.0 / m as real) < 100
    ensures speed >= m ==> Trunc(speed as real * 100.0 / m as real) >= 100
  {
    var x := speed as real * 100.0 / m as real;
    assert x * m as real == speed as real * 100.0;
    if speed < m {
      assert x < 100.0;
    } else {
      assert x >= 100.0;
    }
  }

  // ---------------------------------------------------------------- turning

  /** The largest angular speed (degrees per second) at which steering torque
      is still applied. `Speed / maxSpeed` is an integer division, so the
      envelope is a step function of speed. */
  function TurningEnvelope(speed: int, drifting: bool, s: Settings): (a: real)
    requires s.maxSpeed != 0
    ensures s.maxSpeed > 0 && 0 <= speed < s.maxSpeed ==>
              a == s.maxTurningAngleAtMinSpeed + (if drifting then s.driftTurningAngleBoost else 0.0)
    ensures s.maxSpeed > 0 && s.maxSpeed <= speed < 2 * s.maxSpeed ==>
              a == s.maxTurningAngleAtFullSpeed + (if drifting then s.driftTurningAngleBoost else 0.0)
  {
    QuotRange(speed, s.maxSpeed);
    Interpolate(Quot(speed, s.maxSpeed) as real,
                s.maxTurningAngleAtMinSpeed - s.maxTurningAngleAtFullSpeed,
                s.maxTurningAngleAtFullSpeed + (if drifting then s.driftTurningAngleBoost else 0.0))
  }

  /** `(1 - q) * span + base`: `base + span` at `q == 0`, `base` at `q == 1`. */
  function Interpolate(q: real, span: real, base: real): real
  {
    (1.0 - q) * span + base
  }

  lemma QuotRange(a: int, b: int)
    requires b != 0
    ensures 0 < b && 0 <= a < b ==> Quot(a, b) == 0
    ensures 0 < b && b <= a < 2 * b ==> Quot(a, b) == 1
  {
    if 0 < b && b <= a < 2 * b {
      QuotientOneToTwo(a as real, b as real);
      assert 1.0 <= a as real / b as real < 2.0;
    }
  }

  lemma {:induction false} QuotMonotone(a1: nat, a2: nat, b: nat)
    requires b > 0 && a1 <= a2
    ensures Quot(a1, b) <= Quot(a2, b)
  {
    FloorOfQuotient(a1, b);
    FloorOfQuotient(a2, b);
    var x1, x2 := a1 as real / b as real, a2 as real / b as real;
    assert x1 * b as real == a1 as real;
    assert x2 * b as real == a2 as real;
    assert x1 <= x2;
  }

  /** For a vehicle that turns less at full speed than at rest, the envelope
      never grows as the speed grows. */
  lemma EnvelopeNonIncreasing(speed1: nat, speed2: nat, drifting: bool, s: Settings)
    requires s.maxSpeed > 0 && speed1 <= speed2
    requires s.maxTurningAngleAtFullSpeed <= s.maxTurningAngleAtMinSpeed
    ensures TurningEnvelope(speed2, drifting, s) <= TurningEnvelope(speed1, drifting, s)
  {
    QuotMonotone(speed1, speed2, s.maxSpeed);
    StepDown(Quot(speed1, s.maxSpeed) as real, Quot(speed2, s.maxSpeed) as real,
             s.maxTurningAngleAtMinSpeed - s.maxTurningAngleAtFullSpeed,
             s.maxTurningAngleAtFullSpeed + (if drifting then s.driftTurningAngleBoost else 0.0));
  }

  lemma StepDown(q1: real, q2: real, span: real, base: real)
    requires q1 <= q2 && 0.0 <= span
    ensures Interpolate(q2, span, base) <= Interpolate(q1, span, base)
  {
    assert Interpolate(q1, span, base) - Interpolate(q2, span, base) == (q2 - q1) * span;
    assert 0.0 <= (q2 - q1) * span;
  }

  /** Drifting widens the envelope by exactly the configured boost. */
  lemma EnvelopeDriftBoost(speed: int, s: Settings)
    requires s.maxSpeed != 0
    ensures TurningEnvelope(speed, true, s) == TurningEnvelope(speed, false, s) + s.driftTurningAngleBoost
  {
  }

  // ---------------------------------------------------------------- ground

  /** Number of wheels whose ray hit an actor. */
  function CountHits(wheels: seq<WheelSample>): (n: nat)
    ensures n <= |wheels|
  {
    if wheels == [] then 0
    else CountHits(wheels[..|wheels| - 1]) + (if wheels[|wheels| - 1].hit then 1 else 0)
  }

  /** The set of wheels in contact with the ground. */
  function HitSet(wheels: seq<WheelSample>): set<nat>
  {
    set i: nat | i < |wheels| && wheels[i].hit
  }

  /** The count is the size of the set of wheels in contact. */
  lemma {:induction false} CountHitsIsCardinality(wheels: seq<WheelSample>)
    ensures CountHits(wheels) == |HitSet(wheels)|
  {
    if wheels != [] {
      var n := |wheels| - 1;
      var pre := wheels[..n];
      CountHitsIsCardinality(pre);
      assert HitSet(wheels) == HitSet(pre) + (if wheels[n].hit then {n} else {});
      assert n !in HitSet(pre);
    }
  }

  /** The indices of the wheels in contact, in increasing order. */
  function HitIndices(wheels: seq<WheelSample>): (ix: seq<nat>)
    ensures |ix| == CountHits(wheels)
    ensures forall k :: 0 <= k < |ix| ==> ix[k] < |wheels| && wheels[ix[k]].hit
    ensures forall k, l :: 0 <= k < l < |ix| ==> ix[k] < ix[l]
    ensures forall i :: 0 <= i < |wheels| && wheels[i].hit ==> i in ix
  {
    if wheels == [] then []
    else
      var n := |wheels| - 1;
      var pre := HitIndices(wheels[..n]);
      if wheels[n].hit then pre + [n] else pre
  }

  /** With no wheel at all (or none in contact) a vehicle that needs at least
      one wheel on the ground is airborne. */
  lemma NoContactIsAirborne(wheels: seq<WheelSample>, threshold: int)
    requires threshold >= 1
    requires forall i :: 0 <= i < |wheels| ==> !wheels[i].hit
    ensures !(CountHits(wheels) >= threshold)
  {
    CountHitsIsCardinality(wheels);
    assert HitSet(wheels) == {};
  }

  /** Two of four wheels down meet a threshold of two; one does not. */
  lemma GroundThresholdExample()
    ensures var w := [WheelSample(true, 70.0), WheelSample(false, 0.0), WheelSample(true, 85.0), WheelSample(false, 0.0)];
            CountHits(w) >= 2
    ensures var w := [WheelSample(true, 70.0), WheelSample(false, 0.0), WheelSample(false, 0.0), WheelSample(false, 0.0)];
            !(CountHits(w) >= 2)
  {
    var a, b, c := WheelSample(true, 70.0), WheelSample(false, 0.0), WheelSample(true, 85.0);
    var w := [a, b, c, b];
    assert w[..3] == [a, b, c] && [a, b, c][..2] == [a, b] && [a, b][..1] == [a] && [a][..0] == [];
    assert CountHits([a]) == 1;
    assert CountHits([a, b]) == 1;
    assert CountHits([a, b, c]) == 2;
    var v := [a, b, b, b];
    assert v[..3] == [a, b, b] && [a, b, b][..2] == [a, b];
    assert CountHits([a, b, b]) == 1;
  }

  /** The events of a ground-state transition: one per change, none otherwise. */
  function GroundEdge(was: bool, now: bool): (ev: seq<Event>)
    ensures |ev| == (if was == now then 0 else 1)
    ensures !was && now ==> ev == [OffGroundEnd]
    ensures was && !now ==> ev == [OffGroundStart]
  {
    if !was && now then [OffGroundEnd] else if was && !now then [OffGroundStart] else []
  }

  // ---------------------------------------------------------------- suspension

  /** Visual suspension offset of one wheel: the compression, clamped to the
      configured range, or fully extended when the ray hit nothing. */
  function WheelOffset(w: WheelSample, s: Settings): (r: real)
    ensures s.minSuspensionOffset <= s.maxSuspensionOffset ==>
              s.minSuspensionOffset <= r <= s.maxSuspensionOffset
    ensures !w.hit ==> r == s.minSuspensionOffset
    ensures w.hit && s.minSuspensionOffset <= s.targetSuspensionHeight - w.distance <= s.maxSuspensionOffset ==>
              r == s.targetSuspensionHeight - w.distance
  {
    if w.hit then Clamp(-1.0 * (w.distance - s.targetSuspensionHeight), s.minSuspensionOffset, s.maxSuspensionOffset)
    else s.minSuspensionOffset
  }

  // ---------------------------------------------------------------- adherence

  /** Recovery of grip after a drift: the recover timer over the recover
      duration, clamped to [0, 1]. A zero duration follows IEEE division
      (0/0 and x/0 for x > 0 clamp to 1, x/0 for x < 0 clamps to 0). */
  function RecoverRatio(timer: real, duration: real): (r: real)
    ensures 0.0 <= r <= 1.0
    ensures duration > 0.0 && timer <= 0.0 ==> r == 0.0
    ensures duration > 0.0 && timer >= duration ==> r == 1.0
    ensures duration > 0.0 && 0.0 <= timer <= duration ==> r * duration == timer
  {
    if duration == 0.0 then (if timer < 0.0 then 0.0 else 1.0)
    else
      var x := timer / duration;
      assert duration > 0.0 && timer <= 0.0 ==> x <= 0.0;
      assert duration > 0.0 && timer >= duration ==> x >= 1.0;
      Clamp(x, 0.0, 1.0)
  }

  /** Grip comes back gradually: the ratio never decreases as the timer runs. */
  lemma RecoverRatioMonotone(t1: real, t2: real, duration: real)
    requires duration >= 0.0 && t1 <= t2
    ensures RecoverRatio(t1, duration) <= RecoverRatio(t2, duration)
  {
    if duration > 0.0 {
      var q1, q2 := t1 / duration, t2 / duration;
      assert q1 * duration == t1 && q2 * duration == t2;
      var gap := q2 - q1;
      assert gap * duration == t2 - t1;
      PositiveScaleSign(gap, duration);
      ClampMonotone(q1, q2, 0.0, 1.0);
      assert RecoverRatio(t1, duration) == Clamp(q1, 0.0, 1.0);
      assert RecoverRatio(t2, duration) == Clamp(q2, 0.0, 1.0);
    }
  }

  /** The lateral grip force before drift effects: opposed to the slip. */
  function BaseGrip(lateral: real, s: Settings): (f: real)
    requires s.maxSpeed != 0
    ensures lateral == 0.0 ==> f == 0.0
  {
    -(SpeedToKmH(lateral) / s.maxSpeed as real) * s.mass * s.adherence
  }

  /** The adherence force along the vehicle's right axis. */
  function AdherenceForce(onGround: bool, drifting: bool, lateral: real, recoverTimer: real, s: Settings): (f: real)
    requires s.maxSpeed != 0
    ensures !onGround ==> f == 0.0
    ensures onGround && !drifting ==> Abs(f) <= Abs(BaseGrip(lateral, s))
    ensures onGround && drifting && 0.0 <= s.driftAdherenceNerf <= 100.0 ==> Abs(f) <= Abs(BaseGrip(lateral, s))
    ensures onGround && !drifting && s.driftRecoverDuration > 0.0 && recoverTimer >= s.driftRecoverDuration ==>
              f == BaseGrip(lateral, s)
    ensures onGround && !drifting && s.driftRecoverDuration > 0.0 && recoverTimer <= 0.0 ==> f == 0.0
    ensures onGround && drifting ==> f == BaseGrip(lateral, s) * (1.0 - s.driftAdherenceNerf / 100.0)
    ensures onGround && !drifting ==> f == BaseGrip(lateral, s) * RecoverRatio(recoverTimer, s.driftRecoverDuration)
  {
    if !onGround then 0.0
    else
      var force := BaseGrip(lateral, s);
      if drifting then
        var keep := 1.0 - s.driftAdherenceNerf / 100.0;
        var kept := force - force * (s.driftAdherenceNerf / 100.0);
        assert kept == force * keep;
        ScaleBound(force, keep);
        kept
      else
        var ratio := RecoverRatio(recoverTimer, s.driftRecoverDuration);
        ScaleBound(force, ratio);
        assert s.driftRecoverDuration > 0.0 && recoverTimer <= 0.0 ==> force * ratio == 0.0;
        assert s.driftRecoverDuration > 0.0 && recoverTimer >= s.driftRecoverDuration ==> force * ratio == force;
        force * ratio
  }

  lemma ScaleBound(x: real, k: real)
    ensures 0.0 <= k <= 1.0 ==> Abs(x * k) <= Abs(x)
  {
    if 0.0 <= k <= 1.0 {
      if x >= 0.0 {
        NonNegProduct(x, k);
        NonNegProduct(x, 1.0 - k);
        assert x * k + x * (1.0 - k) == x;
      } else {
        NonNegProduct(-x, k);
        NonNegProduct(-x, 1.0 - k);
        assert (-x) * k + (-x) * (1.0 - k) == -x;
      }
    }
  }

  /** The adherence force never pushes the vehicle further into its slide:
      for a positive grip coefficient and max speed it points against the
      lateral velocity. */
  lemma AdherenceOpposesSlip(onGround: bool, drifting: bool, lateral: real, recoverTimer: real, s: Settings)
    requires s.maxSpeed > 0 && s.mass * s.adherence >= 0.0
    requires 0.0 <= s.driftAdherenceNerf <= 100.0
    ensures AdherenceForce(onGround, drifting, lateral, recoverTimer, s) * lateral <= 0.0
  {
    if onGround {
      var base := BaseGrip(lateral, s);
      GripOpposesSlip(lateral, s);
      var scale := if drifting then 1.0 - s.driftAdherenceNerf / 100.0 else RecoverRatio(recoverTimer, s.driftRecoverDuration);
      assert AdherenceForce(onGround, drifting, lateral, recoverTimer, s) == base * scale;
      NonNegProduct(-(base * lateral), scale);
      assert base * scale * lateral == (base * lateral) * scale;
    }
  }

  /** Without the drift nerf and the recover ratio, the grip is a force
      against the lateral velocity. */
  lemma GripOpposesSlip(lateral: real, s: Settings)
    requires s.maxSpeed > 0 && s.mass * s.adherence >= 0.0
    ensures BaseGrip(lateral, s) * lateral <= 0.0
  {
    var k := SpeedToKmH(lateral) / s.maxSpeed as real;
    var g := s.mass * s.adherence;
    assert BaseGrip(lateral, s) == -(k * g);
    if lateral >= 0.0 {
      DivNonNegative(SpeedToKmH(lateral), s.maxSpeed as real);
      NonNegProduct(k, g);
      NonNegProduct(k * g, lateral);
    } else {
      DivNegation(SpeedToKmH(lateral), s.maxSpeed as real);
      DivNonNegative(-SpeedToKmH(lateral), s.maxSpeed as real);
      NonNegProduct(-k, g);
      NonNegProduct((-k) * g, -lateral);
      assert BaseGrip(lateral, s) * lateral == -(((-k) * g) * (-lateral));
    }
  }

  // ---------------------------------------------------------------- propulsion

  /** A force or torque handed to the physics engine this tick, with its
      magnitude along the vehicle's own axis, or none. */
  datatype Applied = NotApplied | Applied(amount: real)

  /** The acceleration force along the forward axis (before the drift
      compensation), or none at or above max speed. The speed curve
      `Pow(speedRatio, 10)` is computed and discarded by the vehicle, and
      `Speed / maxSpeed` is an integer division, so below max speed the
      force does not fall off. */
  function AccelerationForce(speed: int, scale: real, s: Settings): (f: Applied)
    requires s.maxSpeed != 0
    ensures speed >= s.maxSpeed ==> f == NotApplied
    ensures 0 <= speed < s.maxSpeed ==> f.Applied? && f.amount == s.mass * s.acceleration * scale
  {
    if speed >= s.maxSpeed then NotApplied
    else
      var speedRatio := 1.0 - Quot(speed, s.maxSpeed) as real;
      assert 0 <= speed < s.maxSpeed ==> speedRatio == 1.0;
      Applied(s.mass * s.acceleration * speedRatio * scale)
  }

  /** The state of the reverse-delay timer and the force along the forward
      axis (negative: rearward) of one call to Brake. */
  datatype BrakeOutcome = BrakeOutcome(reverseTimer: real, force: Applied)

  /** Brake: a forward-moving vehicle brakes in proportion to the brake input;
      a vehicle at (truncated) speed 0 first starts the reverse-delay timer,
      and once the timer has reached the delay it is pushed backwards at full
      brake strength, unless it already reached the max reverse speed. */
  function BrakeStep(speed: int, reverseTimer: real, brakingScale: real, s: Settings): (o: BrakeOutcome)
    ensures speed > 0 ==> o.reverseTimer == reverseTimer && o.force == Applied(-(s.mass * s.brake * brakingScale))
    ensures speed <= 0 && reverseTimer == -1.0 ==> o == BrakeOutcome(0.0, NotApplied)
    ensures speed <= 0 && reverseTimer != -1.0 ==> o.reverseTimer == reverseTimer
    ensures speed <= 0 && o.force.Applied? ==>
              && reverseTimer != -1.0
              && reverseTimer >= s.delayBeforeReverse
              && Abs(speed as real) < s.maxReverseSpeed
              && o.force.amount == -(s.mass * s.brake)
    ensures (speed <= 0 && reverseTimer != -1.0 && reverseTimer >= s.delayBeforeReverse
             && Abs(speed as real) < s.maxReverseSpeed) ==> o.force == Applied(-(s.mass * s.brake))
  {
    if speed <= 0 then
      if reverseTimer == -1.0 then BrakeOutcome(0.0, NotApplied)
      else if reverseTimer >= s.delayBeforeReverse then
        if Abs(speed as real) >= s.maxReverseSpeed then BrakeOutcome(reverseTimer, NotApplied)
        else BrakeOutcome(reverseTimer, Applied(-(s.mass * s.brake)))
      else BrakeOutcome(reverseTimer, NotApplied)
    else BrakeOutcome(reverseTimer, Applied(-(s.mass * s.brake * brakingScale)))
  }

  /** The tick advances a running reverse-delay timer before calling Brake. */
  function AdvanceReverseTimer(timer: real, dt: real): (t: real)
    ensures timer < 0.0 ==> t == timer
    ensures timer >= 0.0 && dt >= 0.0 ==> t >= timer
  {
    if timer >= 0.0 then timer + dt else timer
  }

  /** The outcome of the `n`-th of `n` consecutive on-ground ticks with the
      brake held and the vehicle at speed 0. */
  function StandstillBrake(timer: real, dt: real, brakingScale: real, n: nat, s: Settings): BrakeOutcome
    requires n >= 1
    decreases n
  {
    var o := BrakeStep(0, AdvanceReverseTimer(timer, dt), brakingScale, s);
    if n == 1 then o else StandstillBrake(o.reverseTimer, dt, brakingScale, n - 1, s)
  }

  lemma {:induction false} StandstillBrakeRunning(t: real, dt: real, brakingScale: real, n: nat, s: Settings)
    requires t >= 0.0 && dt >= 0.0 && n >= 1
    ensures StandstillBrake(t, dt, brakingScale, n, s).reverseTimer == t + n as real * dt
    ensures StandstillBrake(t, dt, brakingScale, n, s).force.Applied? <==>
              t + n as real * dt >= s.delayBeforeReverse && 0.0 < s.maxReverseSpeed
    decreases n
  {
    if n > 1 {
      StandstillBrakeRunning(t + dt, dt, brakingScale, n - 1, s);
      assert t + dt + (n - 1) as real * dt == t + n as real * dt;
    }
  }

  /** Reverse delay: braking at a standstill, starting with the timer stopped
      (as after accelerating), the first tick only starts the timer; on the
      n-th tick the timer reads (n-1) * dt and the rearward force is applied
      exactly when that has reached the delay before reverse. */
  lemma {:induction false} ReverseAfterDelay(dt: real, brakingScale: real, n: nat, s: Settings)
    requires dt >= 0.0 && n >= 1
    ensures StandstillBrake(-1.0, dt, brakingScale, n, s).reverseTimer == (n - 1) as real * dt
    ensures StandstillBrake(-1.0, dt, brakingScale, n, s).force.Applied? <==>
              n >= 2 && (n - 1) as real * dt >= s.delayBeforeReverse && 0.0 < s.maxReverseSpeed
  {
    if n > 1 {
      StandstillBrakeRunning(0.0, dt, brakingScale, n - 1, s);
    }
  }

  /** `Speed` is a magnitude, so the reverse-speed cap is only consulted at
      truncated speed 0: a vehicle already reversing at any speed, however
      far beyond the max reverse speed, is still pushed backwards by Brake. */
  lemma ReverseSpeedNotCapped(speed: int, reverseTimer: real, brakingScale: real, s: Settings)
    requires speed > 0 && speed as real >= s.maxReverseSpeed
    requires s.mass * s.brake * brakingScale > 0.0
    ensures BrakeStep(speed, reverseTimer, brakingScale, s).force.Applied?
    ensures BrakeStep(speed, reverseTimer, brakingScale, s).force.amount < 0.0
  {
  }

  // ---------------------------------------------------------------- drift

  /** The drift timer and the permission to drift. */
  datatype DriftGate = DriftGate(timer: real, canDrift: bool)
  {
    /** The timer is stopped (-1) or running; permission implies the timer
        has run for at least the start delay. */
    predicate Valid(delay: real)
    {
      (timer == -1.0 || timer >= 0.0) && (canDrift ==> timer >= 0.0 && timer >= delay)
    }
  }

  /** Fast enough and steering hard enough to start counting toward a drift. */
  predicate DriftCondition(speedPercent: int, turningScale: real, s: Settings)
  {
    speedPercent as real >= s.driftMinSpeed && Abs(turningScale) >= s.driftMinTurningScale
  }

  /** One call to Drift: nothing changes while drifting; otherwise the timer
      runs while the condition holds and stops when it fails, and permission
      is granted once the timer has reached the start delay. */
  function DriftStep(g: DriftGate, drifting: bool, speedPercent: int, turningScale: real, dt: real, s: Settings): (r: DriftGate)
    ensures drifting ==> r == g
    ensures !drifting && !DriftCondition(speedPercent, turningScale, s) ==>
              r.timer == -1.0 && (r.canDrift <==> speedPercent as real >= s.driftMinSpeed && s.driftDelay <= -1.0)
    ensures !drifting && DriftCondition(speedPercent, turningScale, s) ==>
              && r.timer == (if g.timer == -1.0 then 0.0 else g.timer + dt)
              && (r.canDrift <==> g.canDrift || r.timer >= s.driftDelay)
    ensures dt >= 0.0 && s.driftDelay >= 0.0 && g.Valid(s.driftDelay) ==> r.Valid(s.driftDelay)
  {
    if drifting then g
    else if speedPercent as real >= s.driftMinSpeed then
      var notTurning := Abs(turningScale) < s.driftMinTurningScale;
      var timer := if notTurning then -1.0 else if g.timer != -1.0 then g.timer + dt else 0.0;
      var allowed := if notTurning then false else g.canDrift;
      DriftGate(timer, if timer >= s.driftDelay then true else allowed)
    else DriftGate(-1.0, false)
  }

  /** `n` consecutive calls to Drift while not drifting. */
  function DriftSteps(g: DriftGate, speedPercent: int, turningScale: real, dt: real, n: nat, s: Settings): DriftGate
    decreases n
  {
    if n == 0 then g else DriftSteps(DriftStep(g, false, speedPercent, turningScale, dt, s), speedPercent, turningScale, dt, n - 1, s)
  }

  lemma {:induction false} DriftStepsRunning(g: DriftGate, speedPercent: int, turningScale: real, dt: real, n: nat, s: Settings)
    requires dt >= 0.0 && g.timer >= 0.0 && (g.canDrift <==> g.timer >= s.driftDelay)
    requires DriftCondition(speedPercent, turningScale, s)
    ensures DriftSteps(g, speedPercent, turningScale, dt, n, s).timer == g.timer + n as real * dt
    ensures DriftSteps(g, speedPercent, turningScale, dt, n, s).canDrift <==> g.timer + n as real * dt >= s.driftDelay
    decreases n
  {
    if n > 0 {
      var g' := DriftStep(g, false, speedPercent, turningScale, dt, s);
      DriftStepsRunning(g', speedPercent, turningScale, dt, n - 1, s);
      assert g.timer + dt + (n - 1) as real * dt == g.timer + n as real * dt;
    }
  }

  /** Drift eligibility needs the condition sustained for the start delay:
      from a stopped timer, after n >= 1 consecutive calls with the condition
      holding the timer reads (n-1) * dt, and drifting is allowed exactly
      when that has reached the delay. */
  lemma {:induction false} SustainedDriftEligibility(speedPercent: int, turningScale: real, dt: real, n: nat, s: Settings)
    requires dt >= 0.0 && s.driftDelay >= 0.0 && n >= 1
    requires DriftCondition(speedPercent, turningScale, s)
    ensures DriftSteps(DriftGate(-1.0, false), speedPercent, turningScale, dt, n, s).timer == (n - 1) as real * dt
    ensures DriftSteps(DriftGate(-1.0, false), speedPercent, turningScale, dt, n, s).canDrift <==>
              (n - 1) as real * dt >= s.driftDelay
  {
    var g1 := DriftStep(DriftGate(-1.0, false), false, speedPercent, turningScale, dt, s);
    DriftStepsRunning(g1, speedPercent, turningScale, dt, n - 1, s);
  }

  /** The drift-permission events: one per change, none otherwise. */
  function CanDriftEdge(was: bool, now: bool): (ev: seq<Event>)
    ensures |ev| == (if was == now then 0 else 1)
    ensures !was && now ==> ev == [CanDriftStart]
    ensures was && !now ==> ev == [CanDriftEnd]
  {
    if !was && now then [CanDriftStart] else if was && !now then [CanDriftEnd] else []
  }

  /** The turn input while drifting: offset toward the drift side and held
      on that side (left for direction -1, right otherwise). */
  function DriftSteer(scale: real, driftDirection: int, offset: real): (r: real)
    ensures driftDirection == -1 ==> -1.0 <= r <= 0.0
    ensures driftDirection != -1 ==> 0.0 <= r <= 1.0
    ensures driftDirection == -1 && offset >= 0.0 ==> r <= Clamp(scale, -1.0, 0.0)
    ensures driftDirection != -1 && offset >= 0.0 ==> Clamp(scale, 0.0, 1.0) <= r
  {
    if driftDirection == -1 then
      ClampMonotone(scale - offset, scale, -1.0, 0.0);
      Clamp(scale - offset, -1.0, 0.0)
    else
      ClampMonotone(scale, scale + offset, 0.0, 1.0);
      Clamp(scale + offset, 0.0, 1.0)
  }

  // ---------------------------------------------------------------- turn

  /** The steering torque about the up axis, if Turn applies one: only at a
      (truncated) speed of at least 5 km/h, below the turning envelope and
      with some turn input; the input is inverted when reversing. */
  function SteeringTorque(speed: int, angularSpeedUp: real, envelope: real, turningScale: real,
                          reverse: bool, turningForce: real): (t: Applied)
    ensures t.Applied? <==> Abs(speed as real) >= 5.0 && Abs(angularSpeedUp) <= envelope && turningScale != 0.0
    ensures t.Applied? ==> t.amount == turningForce * (if reverse then -turningScale else turningScale)
  {
    if Abs(speed as real) < 5.0 then NotApplied
    else if Abs(angularSpeedUp) <= envelope && Abs(turningScale) > 0.0 then
      Applied(turningForce * (turningScale * (if reverse then -1.0 else 1.0)))
    else NotApplied
  }

  /** Reversing steers the other way: for a positive turning force the torque
      has the sign of the input going forward and the opposite sign in reverse. */
  lemma ReverseSteersOpposite(speed: int, angularSpeedUp: real, envelope: real, turningScale: real, turningForce: real)
    requires turningForce > 0.0
    requires SteeringTorque(speed, angularSpeedUp, envelope, turningScale, false, turningForce).Applied?
    ensures SteeringTorque(speed, angularSpeedUp, envelope, turningScale, false, turningForce).amount * turningScale > 0.0
    ensures SteeringTorque(speed, angularSpeedUp, envelope, turningScale, true, turningForce).amount * turningScale < 0.0
  {
    assert turningScale != 0.0;
    var m := Abs(turningScale);
    var p := turningForce * m;
    PosProduct(turningForce, m);
    PosProduct(p, m);
    assert turningForce * turningScale * turningScale == p * m;
    assert turningForce * -turningScale * turningScale == -(p * m);
  }

  // ---------------------------------------------------------------- view

  /** The vehicle fields the animator component reads each tick. */
  datatype VehicleView = VehicleView(
    accelerating: bool,
    braking: bool,
    onGround: bool,
    drifting: bool,
    driftDirection: int,
    turningScale: real,
    deltaTime: real,
    speed: int,
    maxSpeed: int,
    targetSuspensionHeight: real,
    lateralVelocity: real,
    accelerationScale: real,
    brakingScale: real,
    suspensionOffsets: seq<real>)
}
