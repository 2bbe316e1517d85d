/**
 * The Sterzo steering plate: the challenge-response code, the handshake run
 * over the challenge characteristic's notifications, and SterzoController's
 * connection and steering-angle handling.
 */
module Sterzo {
  import opened Wrappers
  import opened DataView
  import opened Config
  import opened Telemetry

  // ---------------------------------------------------------------------------
  // calculateResponseCode. JavaScript evaluates <<, >>, | and ^ on 32-bit
  // integers; every intermediate value here stays below 2^17, so bv32 gives the
  // same numbers.

  /** ((c << n) | (c >> (16 - n))) % 65536. */
  function Rotated(c: bv32, n: bv32): bv32
    requires n < 11
  {
    ((c << n) | (c >> (16 - n))) % 65536
  }

  /** ((c + 38550) ^ m) % 65536. */
  function Mixed(c: bv32, m: bv32): bv32
  {
    ((c + 38550) ^ m) % 65536
  }

  /** The response to a 16-bit challenge: rotate it left by (challenge mod 11)
      within 16 bits, xor with challenge + 38550, keep 16 bits, and reduce
      modulo 65336. */
  function ResponseCode(challenge: int): (r: int)
    requires 0 <= challenge < 0x1_0000
    ensures 0 <= r < 65336
  {
    var c := challenge as bv32;
    var m := Rotated(c, ShiftAmount(challenge));
    (Mixed(c, m) as int) % 65336
  }

  /** challenge % 11 as a word, spelled out value by value so that no integer is
      converted to a bit-vector. */
  function ShiftAmount(challenge: int): (n: bv32)
    requires challenge >= 0
    ensures n < 11
  {
    match challenge % 11
    case 0 => 0 case 1 => 1 case 2 => 2 case 3 => 3 case 4 => 4 case 5 => 5
    case 6 => 6 case 7 => 7 case 8 => 8 case 9 => 9 case _ => 10
  }

  /** ShiftAmount is challenge mod 11. */
  lemma ShiftAmountIsRemainder(challenge: int)
    requires challenge >= 0
    ensures ShiftAmount(challenge) as int == challenge % 11
  {
  }

  /** Bit i of a word. */
  predicate Bit(x: bv32, i: bv32)
    requires i < 32
  {
    (x >> i) & 1 == 1
  }

  /** The shift-or step is a 16-bit rotate left by n: bit i of the result is bit
      (i - n) mod 16 of the challenge, and no bit above 15 is set. */
  lemma RotatedIsRotateLeft(c: bv32, n: bv32, i: bv32)
    requires c < 0x1_0000 && n < 11 && i < 32
    ensures Bit(Rotated(c, n), i) == (i < 16 && Bit(c, (i + 16 - n) % 16))
  {
  }

  /** A rotation by 0 is the challenge itself. */
  lemma RotatedByZero(c: bv32)
    requires c < 0x1_0000
    ensures Rotated(c, 0) == c
  {
  }

  /** The code for challenge 12345 (12345 mod 11 = 3): the rotation gives 33225,
      the xor with 50895 gives 18182. */
  lemma ResponseCodeExample()
    ensures ResponseCode(12345) == 18182
  {
    calc {
      ResponseCode(12345);
      (Mixed(12345 as bv32, Rotated(12345 as bv32, ShiftAmount(12345))) as int) % 65336;
      { assert (12345 as int) as bv32 == 12345; assert 12345 % 11 == 3; assert ShiftAmount(12345) == 3; }
      (Mixed(12345, Rotated(12345, 3)) as int) % 65336;
      { assert Rotated(12345, 3) == 33225; assert Mixed(12345, 33225) == 18182; }
      18182;
    }
  }

  // ---------------------------------------------------------------------------
  // Handshake frames.

  /** Written to the control point once the challenge notifications are on. */
  const TriggerFrame: seq<byte> := [0x03, 0x10]

  /** The 4-octet answer to a challenge: 0x03, 0x11, then the code as uint16 LE. */
  function ResponseFrame(challenge: int): (f: seq<byte>)
    requires 0 <= challenge < 0x1_0000
    ensures |f| == 4 && f[0] == 0x03 && f[1] == 0x11
    ensures GetUint16(f, 2) == Some(ResponseCode(challenge))
  {
    var response := ResponseCode(challenge);
    Uint16RoundTrip(response);
    assert ([0x03, 0x11] + Uint16Bytes(response))[2..] == Uint16Bytes(response);
    [0x03, 0x11] + Uint16Bytes(response)
  }

  /** A notification's opcode: its first two octets, little-endian. */
  function OpCode(value: seq<byte>): int
    requires |value| >= 2
  {
    GetUint16(value, 0).value
  }

  /** A challenge notification: opcode 0x1003 and at least 4 octets. */
  predicate IsChallenge(value: seq<byte>)
  {
    |value| >= 4 && OpCode(value) == SterzoOpChallenge
  }

  /** The challenge a challenge notification carries (uint16 LE at offset 2). */
  function Challenge(value: seq<byte>): (c: int)
    requires IsChallenge(value)
    ensures 0 <= c < 0x1_0000
  {
    GetUint16(value, 2).value
  }

  /** A finished notification: opcode 0x1103 and at least 3 octets; its status is getUint8(2). */
  predicate IsFinished(value: seq<byte>)
  {
    |value| >= 3 && OpCode(value) == SterzoOpResponse
  }

  // ---------------------------------------------------------------------------
  // performHandshake, one notification at a time.

  datatype Stage = ChallengeStage | FinishedStage

  /** The promise performHandshake returns; the first resolve or reject wins. */
  datatype Settlement = Pending | Resolved | Rejected

  function Settle(current: Settlement, next: Settlement): Settlement
  {
    if current == Pending then next else current
  }

  /** The handshake's state: its stage, whether its listener is still attached,
      how its promise has settled, and what it wrote to the control point. */
  datatype Handshake = Handshake(stage: Stage, listening: bool, outcome: Settlement, writes: seq<seq<byte>>)

  /** A challenge-characteristic notification, with whether the control-point
      write it may trigger is accepted. */
  datatype Notification = Notification(value: seq<byte>, writeAccepted: bool)

  /** The state once startNotifications has settled: on failure the promise is
      rejected before any listener is attached; otherwise the listener is
      attached and the trigger written, and a failed trigger write rejects. */
  function Begin(notifyOk: bool, triggerOk: bool): (h: Handshake)
    ensures h.stage == ChallengeStage
    ensures h.listening == notifyOk
    ensures h.outcome == (if notifyOk && triggerOk then Pending else Rejected)
    ensures h.writes == (if notifyOk then [TriggerFrame] else [])
  {
    if !notifyOk then Handshake(ChallengeStage, false, Rejected, [])
    else Handshake(ChallengeStage, true, if triggerOk then Pending else Rejected, [TriggerFrame])
  }

  /** onValue for one notification. In the challenge stage a challenge gets its
      response written, and the stage moves on once the write is accepted (a
      rejected write throws before the stage changes). In the finished stage a
      finished notification with status 0xFF resolves and 0xFE rejects, both
      stopping the notifications; any other status is ignored. Notifications
      shorter than 2 octets, and all after the listener is removed, are ignored. */
  function Step(h: Handshake, n: Notification): (r: Handshake)
  {
    var v := n.value;
    if !h.listening || |v| < 2 then h
    else if h.stage == ChallengeStage then
      if IsChallenge(v) then
        h.(stage := if n.writeAccepted then FinishedStage else ChallengeStage,
           writes := h.writes + [ResponseFrame(Challenge(v))])
      else h
    else if IsFinished(v) && GetUint8(v, 2) == Some(0xFF) then
      h.(listening := false, outcome := Settle(h.outcome, Resolved))
    else if IsFinished(v) && GetUint8(v, 2) == Some(0xFE) then
      h.(listening := false, outcome := Settle(h.outcome, Rejected))
    else h
  }

  /** The state after a stream of notifications, delivered in order. */
  function Run(h: Handshake, ns: seq<Notification>): Handshake
  {
    if ns == [] then h else Step(Run(h, ns[..|ns| - 1]), ns[|ns| - 1])
  }

  /** What one notification can do: only a challenge in the challenge stage
      writes (exactly its response frame), only a 0xFF or 0xFE finished
      notification in the finished stage settles and detaches the listener. */
  lemma StepEffects(h: Handshake, n: Notification)
    ensures var r := Step(h, n);
            && (r.writes != h.writes <==> h.listening && h.stage == ChallengeStage && IsChallenge(n.value))
            && (r.writes != h.writes ==> r.writes == h.writes + [ResponseFrame(Challenge(n.value))])
            && (r.stage != h.stage <==> h.listening && h.stage == ChallengeStage && IsChallenge(n.value)
                                        && n.writeAccepted)
            && (r.listening != h.listening <==>
                  h.listening && h.stage == FinishedStage && IsFinished(n.value)
                  && (GetUint8(n.value, 2) == Some(0xFF) || GetUint8(n.value, 2) == Some(0xFE)))
            && (r.outcome != h.outcome ==> h.outcome == Pending && !r.listening)
            && (h.listening && h.stage == FinishedStage && IsFinished(n.value) && GetUint8(n.value, 2) == Some(0xFF) ==>
                  r.outcome == Settle(h.outcome, Resolved))
            && (h.listening && h.stage == FinishedStage && IsFinished(n.value) && GetUint8(n.value, 2) == Some(0xFE) ==>
                  r.outcome == Settle(h.outcome, Rejected))
  {
  }

  /** A settled promise stays settled the same way. */
  lemma {:induction false} RunKeepsSettlement(h: Handshake, ns: seq<Notification>)
    requires h.outcome != Pending
    ensures Run(h, ns).outcome == h.outcome
  {
    if ns != [] {
      RunKeepsSettlement(h, ns[..|ns| - 1]);
    }
  }

  /** Once the listener is removed nothing changes any more. */
  lemma {:induction false} RunAfterDetach(h: Handshake, ns: seq<Notification>)
    requires !h.listening
    ensures Run(h, ns) == h
  {
    if ns != [] {
      RunAfterDetach(h, ns[..|ns| - 1]);
    }
  }

  /** What the handshake keeps true: in the finished stage some response has
      been written, and it resolves only from the finished stage. */
  ghost predicate Answered(h: Handshake)
  {
    && (h.stage == FinishedStage ==> exists c :: 0 <= c < 0x1_0000 && ResponseFrame(c) in h.writes)
    && (h.outcome == Resolved ==> h.stage == FinishedStage)
  }

  /** The handshake resolves only after the plate's challenge was answered with
      the response frame for it. */
  lemma {:induction false} RunResolvesOnlyAfterResponse(h: Handshake, ns: seq<Notification>)
    requires Answered(h)
    ensures Answered(Run(h, ns))
    ensures Run(h, ns).outcome == Resolved ==>
            exists c :: 0 <= c < 0x1_0000 && ResponseFrame(c) in Run(h, ns).writes
  {
    if ns != [] {
      var prev := Run(h, ns[..|ns| - 1]);
      RunResolvesOnlyAfterResponse(h, ns[..|ns| - 1]);
      var n := ns[|ns| - 1];
      var r := Step(prev, n);
      if r.stage == FinishedStage {
        if prev.stage == FinishedStage {
          var c :| 0 <= c < 0x1_0000 && ResponseFrame(c) in prev.writes;
          assert ResponseFrame(c) in r.writes;
        } else {
          var c := Challenge(n.value);
          assert r.writes == prev.writes + [ResponseFrame(c)];
          assert ResponseFrame(c) in r.writes;
        }
      }
    }
  }

  /** The successful exchange: a challenge whose response is accepted, then
      status 0xFF, resolves the handshake having written the trigger and the
      response and stopped listening. */
  lemma HandshakeAccepted(lo: byte, hi: byte)
    ensures var challenge := Notification([0x03, 0x10, lo, hi], true);
            var finished := Notification([0x03, 0x11, 0xFF], true);
            Run(Begin(true, true), [challenge, finished])
              == Handshake(FinishedStage, false, Resolved,
                           [TriggerFrame, ResponseFrame(lo as int + 256 * hi as int)])
  {
    var challenge := Notification([0x03, 0x10, lo, hi], true);
    var finished := Notification([0x03, 0x11, 0xFF], true);
    var start := Begin(true, true);
    assert [challenge, finished][..1] == [challenge];
    assert [challenge][..0] == [];
    assert IsChallenge(challenge.value) && Challenge(challenge.value) == lo as int + 256 * hi as int;
    var afterChallenge := Step(start, challenge);
    assert Run(start, [challenge]) == afterChallenge;
    assert afterChallenge == Handshake(FinishedStage, true, Pending,
                                       [TriggerFrame, ResponseFrame(lo as int + 256 * hi as int)]);
    assert IsFinished(finished.value);
  }

  /** The refused exchange: a challenge whose response is accepted, then status
      0xFE, rejects the handshake and removes its listener. */
  lemma HandshakeRefused(lo: byte, hi: byte)
    ensures var challenge := Notification([0x03, 0x10, lo, hi], true);
            var finished := Notification([0x03, 0x11, 0xFE], true);
            Run(Begin(true, true), [challenge, finished])
              == Handshake(FinishedStage, false, Rejected,
                           [TriggerFrame, ResponseFrame(lo as int + 256 * hi as int)])
  {
    var challenge := Notification([0x03, 0x10, lo, hi], true);
    var finished := Notification([0x03, 0x11, 0xFE], true);
    var start := Begin(true, true);
    assert [challenge, finished][..1] == [challenge];
    assert [challenge][..0] == [];
    assert IsChallenge(challenge.value) && Challenge(challenge.value) == lo as int + 256 * hi as int;
    var afterChallenge := Step(start, challenge);
    assert Run(start, [challenge]) == afterChallenge;
    assert afterChallenge == Handshake(FinishedStage, true, Pending,
                                       [TriggerFrame, ResponseFrame(lo as int + 256 * hi as int)]);
    assert IsFinished(finished.value);
  }

  /** performHandshake: the closure's `stage` variable updated once per
      notification until the listener is removed. */
  method PerformHandshake(notifyOk: bool, triggerOk: bool, ns: seq<Notification>) returns (h: Handshake)
    ensures h == Run(Begin(notifyOk, triggerOk), ns)
  {
    var stage := ChallengeStage;
    var listening := false;
    var outcome := Pending;
    var writes: seq<seq<byte>> := [];
    if notifyOk {
      listening := true;
      writes := [[0x03, 0x10]];
      if !triggerOk {
        outcome := Rejected;
      }
    } else {
      outcome := Rejected;
    }
    var i := 0;
    while i < |ns|
      invariant 0 <= i <= |ns|
      invariant Handshake(stage, listening, outcome, writes) == Run(Begin(notifyOk, triggerOk), ns[..i])
    {
      assert ns[..i + 1][..i] == ns[..i];
      var val := ns[i].value;
      if listening && |val| >= 2 {
        var opCode := GetUint16(val, 0).value;
        if stage == ChallengeStage {
          if opCode == SterzoOpChallenge && |val| >= 4 {
            var challenge := GetUint16(val, 2).value;
            var response := ResponseCode(challenge);
            var buffer := [0x03 as byte, 0x11] + Uint16Bytes(response);
            writes := writes + [buffer];
            if ns[i].writeAccepted {
              stage := FinishedStage;
            }
          }
        } else if opCode == SterzoOpResponse && |val| >= 3 {
          var status := GetUint8(val, 2).value;
          if status == 0xFF || status == 0xFE {
            if status == 0xFE {
              outcome := Settle(outcome, Rejected);
            }
            listening := false;
            if status == 0xFF {
              outcome := Settle(outcome, Resolved);
            }
          }
        }
      }
      i := i + 1;
    }
    assert ns[..i] == ns;
    h := Handshake(stage, listening, outcome, writes);
  }

  // ---------------------------------------------------------------------------
  // SterzoController.

  /** How each awaited step of connect() other than the handshake turned out. */
  datatype SterzoOutcome = SterzoOutcome(
    deviceReady: bool,         // requestDevice, gatt.connect and the three characteristics
    challengeNotifyOk: bool,   // startNotifications on the challenge characteristic
    triggerOk: bool,           // the trigger write was accepted
    steeringNotifyOk: bool)    // startNotifications on the steering characteristic

  /** The status connect() leaves. A handshake that never settles keeps connect()
      waiting, so the status stays 'connecting'. */
  function SterzoConnectStatus(o: SterzoOutcome, ns: seq<Notification>): (s: LinkStatus)
  {
    if !o.deviceReady then Disconnected
    else match Run(Begin(o.challengeNotifyOk, o.triggerOk), ns).outcome
      case Pending => Connecting
      case Rejected => Disconnected
      case Resolved => if o.steeringNotifyOk then Connected else Disconnected
  }

  /** The steering plate is reported connected only after its challenge was
      answered and the steering notifications started. */
  lemma SterzoConnectedOnlyAfterResponse(o: SterzoOutcome, ns: seq<Notification>)
    ensures SterzoConnectStatus(o, ns) == Connected ==>
            && o.deviceReady && o.steeringNotifyOk
            && exists c :: 0 <= c < 0x1_0000
                 && ResponseFrame(c) in Run(Begin(o.challengeNotifyOk, o.triggerOk), ns).writes
  {
    if o.deviceReady {
      RunResolvesOnlyAfterResponse(Begin(o.challengeNotifyOk, o.triggerOk), ns);
    }
  }

  /** A refused handshake leaves the plate disconnected, so connect() never
      subscribes to the steering notifications. */
  lemma SterzoRefusedStaysDisconnected(o: SterzoOutcome, lo: byte, hi: byte)
    requires o.deviceReady && o.challengeNotifyOk && o.triggerOk
    ensures SterzoConnectStatus(o, [Notification([0x03, 0x10, lo, hi], true),
                                    Notification([0x03, 0x11, 0xFE], true)]) == Disconnected
  {
    HandshakeRefused(lo, hi);
  }

  /** What a steering notification does to the record: values shorter than 4
      octets are ignored; otherwise the decoded float32 becomes the angle. */
  function ApplySteering(t: Telemetry, value: seq<byte>, decodedAngle: real): (r: Telemetry)
    ensures |value| < 4 ==> r == t
    ensures |value| >= 4 ==> r == t.(angle := decodedAngle)
  {
    if |value| >= 4 then t.(angle := decodedAngle) else t
  }

  class SterzoController {
    const sm: StateManager
    /** Everything written to the control point, oldest first. */
    var controlPointWrites: seq<seq<byte>>
    /** Listeners connect() has attached after a successful handshake. */
    var steeringListening: bool
    var disconnectListening: bool

    constructor(sm: StateManager)
      ensures this.sm == sm && controlPointWrites == []
      ensures !steeringListening && !disconnectListening
    {
      this.sm := sm;
      controlPointWrites := [];
      steeringListening, disconnectListening := false, false;
    }

    /** connect(), given each awaited step's outcome and the challenge
        notifications the plate sends during the handshake. */
    method Connect(o: SterzoOutcome, ns: seq<Notification>)
      modifies this, sm
      ensures sm.state == old(sm.state).(sterzoStatus := SterzoConnectStatus(o, ns))
      ensures controlPointWrites == old(controlPointWrites) +
                (if o.deviceReady then Run(Begin(o.challengeNotifyOk, o.triggerOk), ns).writes else [])
      ensures steeringListening == (old(steeringListening) || SterzoConnectStatus(o, ns) == Connected)
      ensures disconnectListening == (old(disconnectListening) || SterzoConnectStatus(o, ns) == Connected)
    {
      sm.SetSterzoStatus(Connecting);
      if !o.deviceReady {
        sm.SetSterzoStatus(Disconnected);
        return;
      }
      var h := PerformHandshake(o.challengeNotifyOk, o.triggerOk, ns);
      controlPointWrites := controlPointWrites + h.writes;
      if h.outcome == Pending {
        return;
      }
      if h.outcome == Rejected || !o.steeringNotifyOk {
        sm.SetSterzoStatus(Disconnected);
        return;
      }
      steeringListening := true;
      disconnectListening := true;
      sm.SetSterzoStatus(Connected);
    }

    /** The steering characteristic listener. */
    method OnSteeringValue(value: seq<byte>, decodedAngle: real)
      modifies sm
      ensures sm.state == ApplySteering(old(sm.state), value, decodedAngle)
    {
      if |value| >= 4 {
        sm.SetAngle(decodedAngle);
      }
    }

    /** The gattserverdisconnected listener. */
    method OnDisconnect()
      modifies sm
      ensures sm.state == old(sm.state).(sterzoStatus := Disconnected)
    {
      sm.SetSterzoStatus(Disconnected);
    }
  }
}
