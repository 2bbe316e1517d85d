/**
 * TrainerController: pairing with a smart trainer, the notification handlers
 * that feed the telemetry record, and the incline command. Each asynchronous
 * Bluetooth step of connect() is reduced to whether it succeeded.
 */
module Trainer {
  import opened Wrappers
  import opened DataView
  import opened Telemetry
  import opened Ftms

  /** How each awaited step of connect() turned out. */
  datatype ConnectOutcome = ConnectOutcome(
    deviceConnected: bool,  // requestDevice and gatt.connect resolved
    ftmsReady: bool,        // the FTMS service and both of its characteristics were found
    controlWriteOk: bool,   // the control request [0x00] was accepted
    ftmsNotifyOk: bool,     // notifications on Indoor Bike Data started
    cpsReady: bool)         // fallback: CPS service, measurement characteristic and notifications

  /** connect() reaches its last line and reports 'connected'. */
  predicate ConnectSucceeds(o: ConnectOutcome)
  {
    o.deviceConnected && ((o.ftmsReady && o.ftmsNotifyOk) || o.cpsReady)
  }

  /** The FTMS path fails after the control point was found and the CPS fallback runs. */
  predicate FallsBackToCps(o: ConnectOutcome)
  {
    o.deviceConnected && !(o.ftmsReady && o.ftmsNotifyOk)
  }

  /** What connect() leaves in the telemetry record: the status ends 'connected'
      or 'disconnected', and isControllable is raised by an accepted control
      request and never lowered. */
  function TrainerConnect(t: Telemetry, o: ConnectOutcome): (r: Telemetry)
  {
    var controllable := t.isControllable || (o.deviceConnected && o.ftmsReady && o.controlWriteOk);
    t.(trainerStatus := if ConnectSucceeds(o) then Connected else Disconnected,
       isControllable := controllable)
  }

  /** connect() ends 'connected' exactly when the device connected and either the
      FTMS data notifications or the CPS fallback started, and it makes the
      trainer controllable exactly when the control request was accepted. */
  lemma TrainerConnectStatus(t: Telemetry, o: ConnectOutcome)
    ensures TrainerConnect(t, o).trainerStatus == Connected <==>
            o.deviceConnected && ((o.ftmsReady && o.ftmsNotifyOk) || o.cpsReady)
    ensures !t.isControllable ==>
            (TrainerConnect(t, o).isControllable <==> o.deviceConnected && o.ftmsReady && o.controlWriteOk)
    ensures TrainerConnect(t, o).(trainerStatus := t.trainerStatus, isControllable := t.isControllable) == t
  {
  }

  /** A failure after the control request was accepted (the data notifications
      and then the CPS fallback fail) reports 'disconnected' yet leaves the
      trainer controllable; only the disconnect handler clears the flag. */
  lemma TrainerConnectFailureKeepsControl(t: Telemetry)
    ensures var r := TrainerConnect(t, ConnectOutcome(true, true, true, false, false));
            r.trainerStatus == Disconnected && r.isControllable
  {
  }

  /** What a gattserverdisconnected event does to the record. */
  function TrainerDisconnect(t: Telemetry): (r: Telemetry)
    ensures r.trainerStatus == Disconnected && !r.isControllable
    ensures r.(trainerStatus := t.trainerStatus, isControllable := t.isControllable) == t
  {
    t.(trainerStatus := Disconnected, isControllable := false)
  }

  /** What an Indoor Bike Data notification does to the record. */
  function ApplyIndoorBikeData(t: Telemetry, frame: seq<byte>): (r: Telemetry)
    ensures var d := IndoorBikeData(frame);
            && r.resistanceLevel == (if d.resistance.Some? then d.resistance.value as real else t.resistanceLevel)
            && r.trainerReportsResistance == (t.trainerReportsResistance || d.resistance.Some?)
            && r.watts == (if d.power.Some? then d.power.value as real else t.watts)
    ensures r.(resistanceLevel := t.resistanceLevel, trainerReportsResistance := t.trainerReportsResistance,
               watts := t.watts) == t
  {
    var d := IndoorBikeData(frame);
    var t1 := if d.resistance.Some? then t.(resistanceLevel := d.resistance.value as real,
                                            trainerReportsResistance := true) else t;
    if d.power.Some? then t1.(watts := d.power.value as real) else t1
  }

  /** What a Cycling Power Measurement notification does to the record. */
  function ApplyCpsData(t: Telemetry, frame: seq<byte>): (r: Telemetry)
    ensures |frame| < 4 ==> r == t
    ensures |frame| >= 4 ==> r == t.(watts := CpsPower(frame).value as real)
  {
    match CpsPower(frame)
    case None => t
    case Some(p) => t.(watts := p as real)
  }

  class TrainerController {
    const sm: StateManager
    /** A control point characteristic is held (controlChar is not null). */
    var controlChar: bool
    /** Every value passed to controlChar.writeValue, oldest first. */
    var writes: seq<seq<byte>>
    /** Listeners connect() has attached; they are never removed. */
    var ftmsListening: bool
    var cpsListening: bool
    var disconnectListening: bool

    constructor(sm: StateManager)
      ensures this.sm == sm && !controlChar && writes == []
      ensures !ftmsListening && !cpsListening && !disconnectListening
    {
      this.sm := sm;
      controlChar := false;
      writes := [];
      ftmsListening, cpsListening, disconnectListening := false, false, false;
    }

    /** connect(), with each awaited step's outcome given. */
    method Connect(o: ConnectOutcome)
      modifies this, sm
      ensures sm.state == TrainerConnect(old(sm.state), o)
      ensures controlChar == (old(controlChar) || (o.deviceConnected && o.ftmsReady))
      ensures writes == old(writes) + (if o.deviceConnected && o.ftmsReady then [[0x00]] else [])
      ensures ftmsListening == (old(ftmsListening) || (o.deviceConnected && o.ftmsReady && o.ftmsNotifyOk))
      ensures cpsListening == (old(cpsListening) || (FallsBackToCps(o) && o.cpsReady))
      ensures disconnectListening == (old(disconnectListening) || ConnectSucceeds(o))
    {
      sm.SetTrainerStatus(Connecting);
      if !o.deviceConnected {
        sm.SetTrainerStatus(Disconnected);
        return;
      }
      var viaFtms := false;
      if o.ftmsReady {
        controlChar := true;
        writes := writes + [[0x00]];
        if o.controlWriteOk {
          sm.SetIsControllable(true);
        }
        if o.ftmsNotifyOk {
          ftmsListening := true;
          viaFtms := true;
        }
      }
      if !viaFtms {
        if !o.cpsReady {
          sm.SetTrainerStatus(Disconnected);
          return;
        }
        cpsListening := true;
      }
      disconnectListening := true;
      sm.SetTrainerStatus(Connected);
    }

    /** The gattserverdisconnected listener. */
    method OnDisconnect()
      modifies sm
      ensures sm.state == TrainerDisconnect(old(sm.state))
    {
      sm.SetTrainerStatus(Disconnected);
      sm.SetIsControllable(false);
    }

    /** handleFtmsData: walk the flags with a running offset and store resistance and power. */
    method HandleFtmsData(val: seq<byte>)
      modifies sm
      ensures sm.state == ApplyIndoorBikeData(old(sm.state), val)
    {
      var flagsRead := GetUint16(val, 0);
      if flagsRead.None? {
        return;
      }
      var flags: nat := flagsRead.value;
      var offset := 2;
      if Present(flags, 0) { offset := offset + 2; }
      if Present(flags, 1) { offset := offset + 2; }
      if Present(flags, 2) { offset := offset + 2; }
      if Present(flags, 3) { offset := offset + 2; }
      if Present(flags, 4) { offset := offset + 3; }
      assert offset == ResistanceOffset(flags);
      if Present(flags, 5) {
        var resistance := GetInt16(val, offset);
        if resistance.None? {
          return;
        }
        sm.SetResistanceLevel(resistance.value as real);
        sm.SetTrainerReportsResistance(true);
        offset := offset + 2;
      }
      assert offset == PowerOffset(flags);
      if Present(flags, 6) {
        var power := GetInt16(val, offset);
        if power.None? {
          return;
        }
        sm.SetWatts(power.value as real);
      }
    }

    /** The CPS measurement listener. */
    method HandleCpsData(val: seq<byte>)
      modifies sm
      ensures sm.state == ApplyCpsData(old(sm.state), val)
    {
      var power := GetInt16(val, 2);
      if power.None? {
        return;
      }
      sm.SetWatts(power.value as real);
    }

    /** sendIncline: nothing without a control point, otherwise one 3-octet write;
        a failed write is caught and changes nothing. */
    method SendIncline(grade: real)
      modifies this`writes
      ensures writes == old(writes) + (if controlChar then [InclineFrame(grade)] else [])
    {
      if !controlChar {
        return;
      }
      var clamped := Physics.Max(-25.0, Physics.Min(40.0, grade));
      var value := Physics.JsRound(clamped * 10.0);
      var buffer := [0x11 as byte] + Int16Bytes(value);
      writes := writes + [buffer];
    }
  }
}
