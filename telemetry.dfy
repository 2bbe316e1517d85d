/**
 * The shared telemetry record (the script's StateManager and its _state
 * object) and the keyboard override of the rider's power. Every setter of
 * the script also re-renders the HUD; rendering is not modelled.
 */
module Telemetry {
  import opened Config
  import opened Physics

  /** The three status strings a device link shows: 'disconnected', 'connecting', 'connected'. */
  datatype LinkStatus = Disconnected | Connecting | Connected

  /** The fields of StateManager._state. */
  datatype Telemetry = Telemetry(
    watts: real,
    smoothWatts: real,
    angle: real,
    trainerStatus: LinkStatus,
    sterzoStatus: LinkStatus,
    isControllable: bool,
    trainerReportsResistance: bool,
    gameStatus: string,
    realGrade: real,
    realSpeed: real,
    smoothSpeed: real,
    resistanceLevel: real)

  /** The record as the constructor creates it. */
  function Initial(): (t: Telemetry)
    ensures t.trainerStatus == Disconnected && t.sterzoStatus == Disconnected
    ensures !t.isControllable && !t.trainerReportsResistance
    ensures t.watts == t.smoothWatts == t.angle == 0.0
    ensures t.realGrade == t.realSpeed == t.smoothSpeed == t.resistanceLevel == 0.0
    ensures t.gameStatus == "Searching..."
  {
    Telemetry(0.0, 0.0, 0.0, Disconnected, Disconnected, false, false, "Searching...", 0.0, 0.0, 0.0, 0.0)
  }

  /** What the realSpeed setter does to the record: store the raw speed and move
      smoothSpeed a tenth of the way towards it. */
  function WithRealSpeed(t: Telemetry, speed: real): (r: Telemetry)
    ensures r.realSpeed == speed
    ensures speed - r.smoothSpeed == (1.0 - SpeedSmoothing) * (speed - t.smoothSpeed)
    ensures r.(realSpeed := t.realSpeed, smoothSpeed := t.smoothSpeed) == t
  {
    t.(realSpeed := speed, smoothSpeed := Smooth(t.smoothSpeed, speed, SpeedSmoothing))
  }

  class StateManager {
    var state: Telemetry

    constructor()
      ensures state == Initial()
    {
      state := Initial();
    }

    method SetWatts(val: real)
      modifies this
      ensures state == old(state).(watts := val)
    {
      state := state.(watts := val);
    }

    method SetSmoothWatts(val: real)
      modifies this
      ensures state == old(state).(smoothWatts := val)
    {
      state := state.(smoothWatts := val);
    }

    method SetAngle(val: real)
      modifies this
      ensures state == old(state).(angle := val)
    {
      state := state.(angle := val);
    }

    method SetTrainerStatus(val: LinkStatus)
      modifies this
      ensures state == old(state).(trainerStatus := val)
    {
      state := state.(trainerStatus := val);
    }

    method SetSterzoStatus(val: LinkStatus)
      modifies this
      ensures state == old(state).(sterzoStatus := val)
    {
      state := state.(sterzoStatus := val);
    }

    method SetGameStatus(val: string)
      modifies this
      ensures state == old(state).(gameStatus := val)
    {
      state := state.(gameStatus := val);
    }

    method SetIsControllable(val: bool)
      modifies this
      ensures state == old(state).(isControllable := val)
    {
      state := state.(isControllable := val);
    }

    method SetTrainerReportsResistance(val: bool)
      modifies this
      ensures state == old(state).(trainerReportsResistance := val)
    {
      state := state.(trainerReportsResistance := val);
    }

    method SetResistanceLevel(val: real)
      modifies this
      ensures state == old(state).(resistanceLevel := val)
    {
      state := state.(resistanceLevel := val);
    }

    method SetRealGrade(val: real)
      modifies this
      ensures state == old(state).(realGrade := val)
    {
      state := state.(realGrade := val);
    }

    /** The one setter with a side effect: it also advances smoothSpeed. */
    method SetRealSpeed(val: real)
      modifies this
      ensures state == WithRealSpeed(old(state), val)
    {
      var s := state;
      state := s.(realSpeed := val, smoothSpeed := s.smoothSpeed + (val - s.smoothSpeed) * SpeedSmoothing);
    }
  }

  /** The keys that raise and lower the manual power. */
  predicate IsRaiseKey(key: string) { key == "=" || key == "+" }
  predicate IsLowerKey(key: string) { key == "-" || key == "_" }

  /** The keyboard override: 20 W up or down (never below 0), only while no
      trainer is connected; every other key does nothing. */
  function DebugInput(t: Telemetry, key: string): (r: Telemetry)
    ensures t.trainerStatus == Connected ==> r == t
    ensures r.(watts := t.watts) == t
    ensures t.trainerStatus != Connected && IsRaiseKey(key) ==> r.watts == t.watts + 20.0
    ensures t.trainerStatus != Connected && IsLowerKey(key) ==> r.watts == Max(0.0, t.watts - 20.0)
    ensures !IsRaiseKey(key) && !IsLowerKey(key) ==> r == t
  {
    if t.trainerStatus == Connected then t
    else if IsRaiseKey(key) then t.(watts := t.watts + 20.0)
    else if IsLowerKey(key) then t.(watts := Max(0.0, t.watts - 20.0))
    else t
  }

  /** Manual power never goes negative once it starts non-negative, and a raise
      followed by a lower puts it back where it was. */
  lemma DebugInputRaiseLower(t: Telemetry, up: string, down: string)
    requires t.watts >= 0.0 && IsRaiseKey(up) && IsLowerKey(down)
    ensures DebugInput(t, up).watts >= 0.0 && DebugInput(t, down).watts >= 0.0
    ensures DebugInput(DebugInput(t, up), down) == t
  {
  }

  /** handleDebugInput: the keydown listener. */
  method HandleDebugInput(sm: StateManager, key: string)
    modifies sm
    ensures sm.state == DebugInput(old(sm.state), key)
  {
    if sm.state.trainerStatus == Connected {
      return;
    }
    if key == "=" || key == "+" {
      sm.SetWatts(sm.state.watts + 20.0);
    } else if key == "-" || key == "_" {
      sm.SetWatts(Max(0.0, sm.state.watts - 20.0));
    }
  }
}
