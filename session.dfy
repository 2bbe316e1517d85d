/**
 * The userscript's wiring: one StateManager shared by the trainer and Sterzo
 * controllers, the physics engine and the virtual gamepad, each driven by the
 * browser event it listens to. Replay folds a sequence of such events over the
 * telemetry record; the lemmas state what holds across any interleaving.
 */
module Session {
  import opened Wrappers
  import opened DataView
  import opened Telemetry
  import opened Ftms
  import opened Trainer
  import opened Sterzo
  import opened Engine
  import opened Gamepad
  import opened Physics

  /** A browser event that reaches one of the script's handlers. */
  datatype Event =
    | TrainerPaired(outcome: ConnectOutcome)              // 'pair-trainer' from the HUD
    | TrainerLost                                          // trainer gattserverdisconnected
    | FtmsNotified(frame: seq<byte>)                       // Indoor Bike Data notification
    | CpsNotified(frame: seq<byte>)                        // Cycling Power Measurement notification
    | SterzoPaired(sterzo: SterzoOutcome, challenges: seq<Notification>)  // 'pair-sterzo'
    | SterzoLost                                           // Sterzo gattserverdisconnected
    | SteeringNotified(value: seq<byte>, angle: real)      // steering notification
    | KeyDown(key: string)                                 // window keydown
    | Poll(now: real, player: Option<Pose>)                // navigator.getGamepads()

  /** What one event does to the telemetry record. */
  function Apply(t: Telemetry, e: Event): Telemetry
  {
    match e
    case TrainerPaired(o) => TrainerConnect(t, o)
    case TrainerLost => TrainerDisconnect(t)
    case FtmsNotified(frame) => ApplyIndoorBikeData(t, frame)
    case CpsNotified(frame) => ApplyCpsData(t, frame)
    case SterzoPaired(o, ns) => t.(sterzoStatus := SterzoConnectStatus(o, ns))
    case SterzoLost => t.(sterzoStatus := Disconnected)
    case SteeringNotified(value, angle) => ApplySteering(t, value, angle)
    case KeyDown(key) => DebugInput(t, key)
    case Poll(_, player) => PhysicsTick(SmoothPower(t), player)
  }

  /** The record after a sequence of events, oldest first. */
  function Replay(t: Telemetry, es: seq<Event>): Telemetry
  {
    if |es| == 0 then t else Apply(Replay(t, es[..|es| - 1]), es[|es| - 1])
  }

  /** An Indoor Bike Data frame whose resistance field is present and readable. */
  predicate ReportsResistance(e: Event)
  {
    e.FtmsNotified? && IndoorBikeData(e.frame).resistance.Some?
  }

  /** Once the trainer has reported resistance the flag stays raised: nothing clears it. */
  lemma {:induction false} ReplayReportingSticky(t: Telemetry, es: seq<Event>)
    requires t.trainerReportsResistance
    ensures Replay(t, es).trainerReportsResistance
  {
    if |es| > 0 {
      ReplayReportingSticky(t, es[..|es| - 1]);
    }
  }

  /** The flag is raised exactly when it was raised before or some event was a
      frame carrying resistance. */
  lemma {:induction false} ReplayReportsIff(t: Telemetry, es: seq<Event>)
    ensures Replay(t, es).trainerReportsResistance <==>
            t.trainerReportsResistance || exists i :: 0 <= i < |es| && ReportsResistance(es[i])
  {
    if |es| > 0 {
      var init := es[..|es| - 1];
      ReplayReportsIff(t, init);
      if exists i :: 0 <= i < |es| && ReportsResistance(es[i]) {
        var i :| 0 <= i < |es| && ReportsResistance(es[i]);
        if i < |es| - 1 {
          assert ReportsResistance(init[i]);
        }
      } else {
        forall i | 0 <= i < |init|
          ensures !ReportsResistance(init[i])
        {
          assert init[i] == es[i];
        }
      }
    }
  }

  /** From the initial record, the trainer counts as reporting resistance exactly
      after a frame that carried it. */
  lemma ReplayFromInitialReports(es: seq<Event>)
    ensures Replay(Initial(), es).trainerReportsResistance <==>
            exists i :: 0 <= i < |es| && ReportsResistance(es[i])
  {
    ReplayReportsIff(Initial(), es);
  }

  /** While resistance is reported, polls no longer overwrite it: only Indoor Bike
      Data frames that carry a resistance field change the level; frames with
      power alone, CPS frames and every other event leave it. */
  lemma {:induction false} ReplayKeepsReportedResistance(t: Telemetry, es: seq<Event>)
    requires t.trainerReportsResistance
    requires forall i :: 0 <= i < |es| ==> !ReportsResistance(es[i])
    ensures Replay(t, es).resistanceLevel == t.resistanceLevel
  {
    if |es| > 0 {
      var init := es[..|es| - 1];
      assert forall i :: 0 <= i < |init| ==> init[i] == es[i];
      ReplayKeepsReportedResistance(t, init);
      ReplayReportingSticky(t, init);
    }
  }

  /** Without reported resistance the level is the HUD estimate, so it stays on
      the 0..200 bar. */
  lemma {:induction false} ReplayEstimateOnBar(t: Telemetry, es: seq<Event>)
    requires 0.0 <= t.resistanceLevel <= 200.0
    requires !Replay(t, es).trainerReportsResistance
    ensures 0.0 <= Replay(t, es).resistanceLevel <= 200.0
  {
    if |es| > 0 {
      var init := es[..|es| - 1];
      // a flag raised before the last event would still be raised after it
      if !Replay(t, init).trainerReportsResistance {
        ReplayEstimateOnBar(t, init);
      }
    }
  }

  /** A trainer that accepted the control request stays controllable until its
      disconnect event. */
  lemma {:induction false} ReplayControlUntilDisconnect(t: Telemetry, es: seq<Event>)
    requires t.isControllable
    requires forall i :: 0 <= i < |es| ==> !es[i].TrainerLost?
    ensures Replay(t, es).isControllable
  {
    if |es| > 0 {
      var init := es[..|es| - 1];
      assert forall i :: 0 <= i < |init| ==> init[i] == es[i];
      ReplayControlUntilDisconnect(t, init);
    }
  }

  /** The script's objects, created once at start-up and sharing one StateManager. */
  class Userscript {
    const sm: StateManager
    const trainer: TrainerController
    const sterzo: SterzoController
    const physics: PhysicsEngine
    const pad: VirtualGamepad

    ghost predicate Valid()
      reads this, sm, pad
    {
      && trainer.sm == sm && sterzo.sm == sm
      && physics.sm == sm && physics.trainer == trainer
      && pad.sm == sm && pad.physics == physics && pad.Valid()
      && sm.state.realSpeed >= 0.0
    }

    constructor()
      ensures Valid() && sm.state == Initial()
      ensures trainer.writes == [] && sterzo.controlPointWrites == []
    {
      var s := new StateManager();
      var tc := new TrainerController(s);
      var pe := new PhysicsEngine(s, tc);
      sm := s;
      trainer := tc;
      sterzo := new SterzoController(s);
      physics := pe;
      pad := new VirtualGamepad(s, pe);
    }

    /** Deliver one event to the handler listening for it. */
    method Dispatch(e: Event)
      requires Valid()
      requires e.Poll? && e.player.Some? ==> e.player.value.speed >= 0.0
      modifies sm, trainer, sterzo, physics, pad, pad.axes, pad.buttons
      ensures Valid()
      ensures sm.state == Apply(old(sm.state), e)
      ensures pad.timestamp == (if e.Poll? then e.now else old(pad.timestamp))
      // a poll hands the game the steering axis and the accelerator, and may send an incline
      ensures e.Poll? ==>
                && pad.axes[0] == SteerAxis(old(sm.state.angle))
                && pad.buttons[7] == ThrottleFor(SmoothPower(old(sm.state)))
                && (forall i :: 1 <= i < pad.axes.Length ==> pad.axes[i] == old(pad.axes[i]))
                && (forall i :: 0 <= i < pad.buttons.Length && i != 7 ==> pad.buttons[i] == old(pad.buttons[i]))
      ensures e.Poll? && InclineDue(old(sm.state), e.player, e.now, old(physics.lastUpdate)) ==>
                && physics.lastUpdate == e.now
                && trainer.writes == old(trainer.writes) +
                     (if trainer.controlChar then [InclineFrame(e.player.value.grade)] else [])
      ensures e.Poll? && !InclineDue(old(sm.state), e.player, e.now, old(physics.lastUpdate)) ==>
                physics.lastUpdate == old(physics.lastUpdate) && trainer.writes == old(trainer.writes)
      ensures !e.Poll? ==>
                && physics.lastUpdate == old(physics.lastUpdate)
                && pad.axes[..] == old(pad.axes[..]) && pad.buttons[..] == old(pad.buttons[..])
      // pairing the trainer writes [0x00] and attaches listeners as connect() does
      ensures e.TrainerPaired? ==>
                && trainer.controlChar == (old(trainer.controlChar) || (e.outcome.deviceConnected && e.outcome.ftmsReady))
                && trainer.writes == old(trainer.writes) + (if e.outcome.deviceConnected && e.outcome.ftmsReady then [[0x00]] else [])
                && trainer.ftmsListening == (old(trainer.ftmsListening) || (e.outcome.deviceConnected && e.outcome.ftmsReady && e.outcome.ftmsNotifyOk))
                && trainer.cpsListening == (old(trainer.cpsListening) || (FallsBackToCps(e.outcome) && e.outcome.cpsReady))
                && trainer.disconnectListening == (old(trainer.disconnectListening) || ConnectSucceeds(e.outcome))
      ensures !e.TrainerPaired? && !e.Poll? ==> trainer.writes == old(trainer.writes)
      ensures !e.TrainerPaired? ==>
                && trainer.controlChar == old(trainer.controlChar)
                && trainer.ftmsListening == old(trainer.ftmsListening)
                && trainer.cpsListening == old(trainer.cpsListening)
                && trainer.disconnectListening == old(trainer.disconnectListening)
      // pairing the Sterzo runs the handshake and attaches listeners only on success
      ensures e.SterzoPaired? ==>
                && sterzo.controlPointWrites == old(sterzo.controlPointWrites) +
                     (if e.sterzo.deviceReady then Run(Begin(e.sterzo.challengeNotifyOk, e.sterzo.triggerOk), e.challenges).writes else [])
                && sterzo.steeringListening == (old(sterzo.steeringListening) || SterzoConnectStatus(e.sterzo, e.challenges) == Connected)
                && sterzo.disconnectListening == (old(sterzo.disconnectListening) || SterzoConnectStatus(e.sterzo, e.challenges) == Connected)
      ensures !e.SterzoPaired? ==>
                && sterzo.controlPointWrites == old(sterzo.controlPointWrites)
                && sterzo.steeringListening == old(sterzo.steeringListening)
                && sterzo.disconnectListening == old(sterzo.disconnectListening)
    {
      match e
      case TrainerPaired(o) => trainer.Connect(o);
      case TrainerLost => trainer.OnDisconnect();
      case FtmsNotified(frame) => trainer.HandleFtmsData(frame);
      case CpsNotified(frame) => trainer.HandleCpsData(frame);
      case SterzoPaired(o, ns) => sterzo.Connect(o, ns);
      case SterzoLost => sterzo.OnDisconnect();
      case SteeringNotified(value, angle) => sterzo.OnSteeringValue(value, angle);
      case KeyDown(key) => HandleDebugInput(sm, key);
      case Poll(now, player) => pad.Update(now, player);
    }
  }
}
