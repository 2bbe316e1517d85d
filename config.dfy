/** The tuning constants the script fixes at load time (its CONFIG object). */
module Config {

  /** Steering angle, in degrees, that maps to a full axis deflection. */
  const MaxSteerAngle: real := 20.0
  /** Angles at or below this magnitude, in degrees, steer straight. */
  const SteeringDeadband: real := 0.0
  /** Fraction of the gap to raw power closed on every gamepad poll. */
  const Smoothing: real := 0.15
  /** Fraction of the gap to the game's speed closed on every speed update. */
  const SpeedSmoothing: real := 0.1
  /** Resistance units per percent of grade in the local estimate. */
  const GradeFactor: real := 10.0
  /** Estimated resistance on a flat road. */
  const BaseResistance: real := 30.0
  /** Rider drag area, in square metres. */
  const Cda: real := 0.3
  /** Minimum time, in milliseconds, between two incline writes. */
  const ResistanceUpdateRate: real := 500.0
  /** Mass of rider and bike, in kilograms. */
  const SystemMass: real := 85.0
  /** Multiplier on the rider's power; 1.0 is realistic. */
  const ScalingFactor: real := 1.0

  /** Sterzo notification opcodes (little-endian first two octets). */
  const SterzoOpChallenge: int := 0x1003
  const SterzoOpResponse: int := 0x1103
}
