/**
 * VirtualGamepad: the pad the game polls. Each poll maps the steering angle
 * to axis 0 and the smoothed power to button 7 (the accelerator), then runs
 * the physics engine.
 */
module Gamepad {
  import opened Wrappers
  import opened Config
  import opened Physics
  import opened Telemetry
  import opened Engine

  /** A standard gamepad button. */
  datatype GamepadButton = GamepadButton(pressed: bool, value: real)

  /** The accelerator button for a throttle: below the 0.05 activation threshold
      it is released with value 0, above it pressed with the throttle as value. */
  function ThrottleButton(throttleNorm: real): (b: GamepadButton)
    ensures b.pressed <==> throttleNorm > 0.05
    ensures b.pressed ==> b.value == throttleNorm
    ensures !b.pressed ==> b.value == 0.0
  {
    GamepadButton(throttleNorm > 0.05, if throttleNorm > 0.05 then throttleNorm else 0.0)
  }

  /** What a poll does to the power smoothing: smoothWatts closes 15% of its gap to watts. */
  function SmoothPower(t: Telemetry): (r: Telemetry)
    ensures t.watts - r.smoothWatts == (1.0 - Smoothing) * (t.watts - t.smoothWatts)
    ensures r.(smoothWatts := t.smoothWatts) == t
  {
    t.(smoothWatts := Smooth(t.smoothWatts, t.watts, Smoothing))
  }

  /** The accelerator button for the telemetry a poll sees after smoothing; the
      speed is the one stored by the previous poll. It is pressed exactly when its
      value is positive, and that value is 0 or lies in (0.05, 1]. */
  function ThrottleFor(t: Telemetry): (b: GamepadButton)
    requires t.realSpeed >= 0.0
    ensures b.pressed <==> b.value > 0.0
    ensures b.value == 0.0 || 0.05 < b.value <= 1.0
  {
    ThrottleButton(MapWattsToThrottle(t.smoothWatts, t.realSpeed, SystemMass, ScalingFactor))
  }

  class VirtualGamepad {
    const sm: StateManager
    const physics: PhysicsEngine
    var timestamp: real
    const axes: array<real>
    const buttons: array<GamepadButton>

    ghost predicate Valid()
      reads this
    {
      axes.Length == 4 && buttons.Length == 17
    }

    constructor(sm: StateManager, physics: PhysicsEngine)
      ensures Valid() && this.sm == sm && this.physics == physics
      ensures fresh(axes) && fresh(buttons) && timestamp == 0.0
      ensures axes[..] == [0.0, 0.0, 0.0, 0.0]
      ensures forall i :: 0 <= i < buttons.Length ==> buttons[i] == GamepadButton(false, 0.0)
    {
      this.sm := sm;
      this.physics := physics;
      timestamp := 0.0;
      axes := new real[4](_ => 0.0);
      buttons := new GamepadButton[17](_ => GamepadButton(false, 0.0));
    }

    /** update(): called on every navigator.getGamepads() poll; `now` stands for
        performance.now(). Only axes[0] and buttons[7] are written. */
    method Update(now: real, player: Option<Pose>)
      requires Valid() && physics.sm == sm
      requires sm.state.realSpeed >= 0.0
      modifies this`timestamp, axes, buttons, sm, physics, physics.trainer`writes
      ensures Valid() && timestamp == now
      ensures axes[0] == SteerAxis(old(sm.state.angle))
      ensures forall i :: 1 <= i < axes.Length ==> axes[i] == old(axes[i])
      ensures buttons[7] == ThrottleFor(SmoothPower(old(sm.state)))
      ensures forall i :: 0 <= i < buttons.Length && i != 7 ==> buttons[i] == old(buttons[i])
      ensures sm.state == PhysicsTick(SmoothPower(old(sm.state)), player)
      ensures InclineDue(old(sm.state), player, now, old(physics.lastUpdate)) ==>
                physics.lastUpdate == now &&
                physics.trainer.writes == old(physics.trainer.writes) +
                  (if physics.trainer.controlChar then [Ftms.InclineFrame(player.value.grade)] else [])
      ensures !InclineDue(old(sm.state), player, now, old(physics.lastUpdate)) ==>
                physics.lastUpdate == old(physics.lastUpdate) && physics.trainer.writes == old(physics.trainer.writes)
    {
      timestamp := now;

      var rawAngle := sm.state.angle;
      var absAngle := Abs(rawAngle);
      var steerOutput := 0.0;
      if absAngle > SteeringDeadband {
        var activeRange := MaxSteerAngle - SteeringDeadband;
        var adjustedAngle := absAngle - SteeringDeadband;
        var ratio := adjustedAngle / activeRange;
        steerOutput := Max(-1.0, Min(1.0, ratio)) * Sign(rawAngle);
      }
      axes[0] := steerOutput;

      sm.SetSmoothWatts(sm.state.smoothWatts + (sm.state.watts - sm.state.smoothWatts) * Smoothing);
      var throttleNorm := MapWattsToThrottle(sm.state.smoothWatts, sm.state.realSpeed, SystemMass, ScalingFactor);
      buttons[7] := GamepadButton(throttleNorm > 0.05, if throttleNorm > 0.05 then throttleNorm else 0.0);

      physics.Update(timestamp, player);
    }
  }
}
