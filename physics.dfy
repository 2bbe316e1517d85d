/**
 * The numeric mappings between the rider's world (watts, metres per second,
 * degrees, percent grade) and the game's inputs (throttle, steering axis,
 * drag constant, resistance estimate). JavaScript numbers are modelled as
 * exact reals: there is no rounding error, NaN or infinity here.
 */
module Physics {
  import opened Config

  /** Math.max and Math.min on two operands. */
  function Max(a: real, b: real): real { if a >= b then a else b }
  function Min(a: real, b: real): real { if a <= b then a else b }

  /** Math.abs and Math.sign. */
  function Abs(x: real): real { if x < 0.0 then -x else x }
  function Sign(x: real): real { if x > 0.0 then 1.0 else if x < 0.0 then -1.0 else 0.0 }

  /** Math.max(lo, Math.min(hi, x)): x forced into [lo, hi]. */
  function Clamp(lo: real, hi: real, x: real): (r: real)
    requires lo <= hi
    ensures lo <= r <= hi
    ensures lo <= x <= hi ==> r == x
    ensures x < lo ==> r == lo
    ensures x > hi ==> r == hi
  {
    Max(lo, Min(hi, x))
  }

  /** Math.round: the nearest integer, halves rounded upward. */
  function JsRound(x: real): (r: int)
    ensures x - 0.5 < r as real <= x + 0.5
  {
    (x + 0.5).Floor
  }

  /** One step of exponential smoothing: close the fraction alpha of the gap to raw. */
  function Smooth(prev: real, raw: real, alpha: real): (r: real)
    ensures raw - r == (1.0 - alpha) * (raw - prev)
  {
    prev + (raw - prev) * alpha
  }

  /** With 0 <= alpha <= 1 the smoothed value lands between the old value and the raw
      one, and the remaining gap is the old gap times (1 - alpha). */
  lemma SmoothBetween(prev: real, raw: real, alpha: real)
    requires 0.0 <= alpha <= 1.0
    ensures Min(prev, raw) <= Smooth(prev, raw, alpha) <= Max(prev, raw)
    ensures raw - Smooth(prev, raw, alpha) == (1.0 - alpha) * (raw - prev)
  {
    var gap := raw - prev;
    var size := if gap >= 0.0 then gap else -gap;
    assert size * alpha >= 0.0;
    assert size * (1.0 - alpha) >= 0.0;
  }

  /** The game's drag constant for a rider: (0.5 * rho * CdA) / mass. */
  function GameDrag(cda: real, massKg: real, airDensity: real := 1.225): (r: real)
    requires massKg > 0.0
    ensures r * massKg == 0.5 * airDensity * cda
    ensures cda > 0.0 && airDensity > 0.0 ==> r > 0.0
  {
    (0.5 * airDensity * cda) / massKg
  }

  /** The resistance level shown while the trainer reports none: 30 plus 10 per
      percent of grade, held inside [0, 200]. */
  function EstimatedResistance(gradePercent: real): (r: real)
    ensures 0.0 <= r <= 200.0
    ensures gradePercent <= -3.0 ==> r == 0.0
    ensures gradePercent >= 17.0 ==> r == 200.0
    ensures -3.0 <= gradePercent <= 17.0 ==> r == 30.0 + 10.0 * gradePercent
  {
    Max(0.0, Min(200.0, BaseResistance + gradePercent * GradeFactor))
  }

  /** A steeper road never lowers the estimate. */
  lemma EstimatedResistanceMonotone(g1: real, g2: real)
    requires g1 <= g2
    ensures EstimatedResistance(g1) <= EstimatedResistance(g2)
  {
  }

  /** How much of its nominal acceleration the game delivers at a given speed:
      0.75 at rest, rising linearly to 1 at 66.67 m/s and above. */
  function Efficiency(currentSpeed: real): (e: real)
    requires currentSpeed >= 0.0
    ensures 0.75 <= e <= 1.0
  {
    var speedRatio := currentSpeed / 66.67;
    var capped := if speedRatio > 1.0 then 1.0 else speedRatio;
    0.75 + capped * (1.0 - 0.75)
  }

  /** The rider's power turned into a throttle signal in [0, 1]: force P / v at no
      less than 0.5 m/s, acceleration F / m, normalised by the game's maximum
      acceleration (10 m/s^2) times its efficiency at this speed. */
  function MapWattsToThrottle(humanWatts: real, currentSpeed: real,
                              riderMassKg: real := 80.0, scalingFactor: real := 1.0): (r: real)
    requires currentSpeed >= 0.0 && riderMassKg > 0.0
    ensures 0.0 <= r <= 1.0
  {
    var gameMaxAccel := 10.0;
    var effectiveSpeed := Max(0.5, currentSpeed);
    var drivingForceNewtons := (humanWatts * scalingFactor) / effectiveSpeed;
    var requiredAccel := drivingForceNewtons / riderMassKg;
    var signal := requiredAccel / (gameMaxAccel * Efficiency(currentSpeed));
    Max(0.0, Min(1.0, signal))
  }

  /** The positive factor that turns scaled watts into the unclamped signal. */
  function ThrottleGain(currentSpeed: real, riderMassKg: real): (k: real)
    requires currentSpeed >= 0.0 && riderMassKg > 0.0
    ensures k > 0.0
  {
    1.0 / (Max(0.5, currentSpeed) * riderMassKg * 10.0 * Efficiency(currentSpeed))
  }

  /** The throttle is the scaled power times a positive gain, clamped to [0, 1]. */
  lemma ThrottleClosedForm(humanWatts: real, currentSpeed: real, riderMassKg: real, scalingFactor: real)
    requires currentSpeed >= 0.0 && riderMassKg > 0.0
    ensures MapWattsToThrottle(humanWatts, currentSpeed, riderMassKg, scalingFactor)
         == Clamp(0.0, 1.0, humanWatts * scalingFactor * ThrottleGain(currentSpeed, riderMassKg))
  {
    var p := humanWatts * scalingFactor;
    var v := Max(0.5, currentSpeed);
    var e := Efficiency(currentSpeed);
    var k := ThrottleGain(currentSpeed, riderMassKg);
    assert k * (v * riderMassKg * 10.0 * e) == 1.0;
    calc {
      p / v / riderMassKg / (10.0 * e);
      p / (v * riderMassKg * (10.0 * e));
      p * k;
    }
  }

  /** No power (or drag-only input) gives no throttle. */
  lemma ThrottleZeroWithoutPower(humanWatts: real, currentSpeed: real, riderMassKg: real, scalingFactor: real)
    requires currentSpeed >= 0.0 && riderMassKg > 0.0 && scalingFactor >= 0.0
    requires humanWatts <= 0.0
    ensures MapWattsToThrottle(humanWatts, currentSpeed, riderMassKg, scalingFactor) == 0.0
  {
    ThrottleClosedForm(humanWatts, currentSpeed, riderMassKg, scalingFactor);
    var k := ThrottleGain(currentSpeed, riderMassKg);
    assert humanWatts * scalingFactor <= 0.0;
    assert humanWatts * scalingFactor * k <= 0.0;
  }

  /** More power never gives less throttle, for a fixed speed, mass and scaling. */
  lemma ThrottleMonotone(w1: real, w2: real, currentSpeed: real, riderMassKg: real, scalingFactor: real)
    requires currentSpeed >= 0.0 && riderMassKg > 0.0 && scalingFactor >= 0.0
    requires w1 <= w2
    ensures MapWattsToThrottle(w1, currentSpeed, riderMassKg, scalingFactor)
         <= MapWattsToThrottle(w2, currentSpeed, riderMassKg, scalingFactor)
  {
    var k := ThrottleGain(currentSpeed, riderMassKg);
    calc {
      MapWattsToThrottle(w1, currentSpeed, riderMassKg, scalingFactor);
      == { ThrottleClosedForm(w1, currentSpeed, riderMassKg, scalingFactor); }
      Clamp(0.0, 1.0, w1 * scalingFactor * k);
      <= { ClampScaledMonotone(w1, w2, scalingFactor, k); }
      Clamp(0.0, 1.0, w2 * scalingFactor * k);
      == { ThrottleClosedForm(w2, currentSpeed, riderMassKg, scalingFactor); }
      MapWattsToThrottle(w2, currentSpeed, riderMassKg, scalingFactor);
    }
  }

  /** Scaling two ordered values by non-negative factors and clamping keeps their order. */
  lemma ClampScaledMonotone(w1: real, w2: real, s: real, k: real)
    requires w1 <= w2 && s >= 0.0 && k >= 0.0
    ensures Clamp(0.0, 1.0, w1 * s * k) <= Clamp(0.0, 1.0, w2 * s * k)
  {
    assert (w2 - w1) * s >= 0.0;
    assert w1 * s <= w2 * s;
    assert (w2 * s - w1 * s) * k >= 0.0;
    assert w1 * s * k <= w2 * s * k;
  }

  /** The steering axis for a plate angle in degrees: zero inside the deadband,
      otherwise the share of the active range, saturated at 1, with the angle's
      sign (this version of the script does not negate it). */
  function SteerAxis(rawAngle: real): (axis: real)
    ensures -1.0 <= axis <= 1.0
    ensures Abs(rawAngle) <= SteeringDeadband ==> axis == 0.0
    ensures Abs(rawAngle) >= MaxSteerAngle ==> axis == Sign(rawAngle)
    ensures axis > 0.0 <==> rawAngle > SteeringDeadband
    ensures axis < 0.0 <==> rawAngle < -SteeringDeadband
  {
    var absAngle := Abs(rawAngle);
    if absAngle > SteeringDeadband then
      var activeRange := MaxSteerAngle - SteeringDeadband;
      var ratio := (absAngle - SteeringDeadband) / activeRange;
      Max(-1.0, Min(1.0, ratio)) * Sign(rawAngle)
    else
      0.0
  }

  /** Inside the full-lock angle the axis is proportional to the angle, and
      mirroring the angle mirrors the axis. */
  lemma SteerAxisLinear(rawAngle: real)
    requires Abs(rawAngle) <= MaxSteerAngle
    ensures SteerAxis(rawAngle) == rawAngle / MaxSteerAngle
    ensures SteerAxis(-rawAngle) == -SteerAxis(rawAngle)
  {
  }

  /** Turning the plate further never moves the axis the other way. */
  lemma SteerAxisMonotone(a1: real, a2: real)
    requires a1 <= a2
    ensures SteerAxis(a1) <= SteerAxis(a2)
  {
  }
}
