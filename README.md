# slow-parcours in Dafny

This is a verified model of the control core of the `slow-parcours` userscript.
The script connects a smart trainer and a Sterzo steering plate over Bluetooth
LE to a browser cycling game. It decodes the trainer's power and resistance
frames (FTMS Indoor Bike Data, or Cycling Power Measurement as a fallback) and
answers the Sterzo's challenge-response handshake. It then presents the rider's
power and steering angle to the game as a virtual gamepad, and sends the
game's road grade back to the trainer as an incline command, at most every
500 ms.

Modules, one file each:

- `Wrappers` (`wrappers.dfy`): the `Option` type.
- `DataView` (`data_view.dfy`): the little-endian `DataView` reads and writes the
  script uses. A read past the end of the buffer is `None`, standing for the
  `RangeError` `DataView` throws.
- `Config` (`config.dfy`): the script's `CONFIG` constants.
- `Physics` (`physics.dfy`): the numeric mappings, over `real`:
  - power to throttle;
  - steering angle to axis;
  - drag;
  - resistance estimate;
  - smoothing;
  - `Math.round`.
- `Telemetry` (`telemetry.dfy`): the record `StateManager` holds, the
  `StateManager` class with its setters, and the debug keyboard override.
- `Ftms` (`ftms.dfy`): Indoor Bike Data decoding, the incline command frame, and
  the CPS power field.
- `Trainer` (`trainer.dfy`): `TrainerController`.
  - Connecting is modelled with each awaited Bluetooth step's outcome as an input.
  - It also holds the FTMS and CPS notification handlers and `sendIncline`.
  - Writes to the control point are kept as a sequence of frames.
- `Sterzo` (`sterzo.dfy`): the response code, and the handshake.
  - The handshake is a step function over the challenge characteristic's notifications.
  - `PerformHandshake` is a loop proved equal to that fold.
  - `SterzoController` is the class.
- `Engine` (`engine.dfy`): `PhysicsEngine.update` and its 500 ms rate limit,
  and `UpdateEach`, a loop of `update` calls proved against the fold of ticks.
- `Gamepad` (`gamepad.dfy`): `VirtualGamepad.update`, which writes `axes[0]` and
  `buttons[7]` of fixed-size arrays.
- `Session` (`session.dfy`): the start-up wiring. One `StateManager` is shared by
  all controllers.
  - `Userscript.Dispatch` delivers one browser event to its handler.
  - `Replay` folds events over the telemetry record; lemmas state what holds for
    every interleaving.

Each imperative method is tied by its `ensures` to a pure function of the old
state, and the properties are proved about that function.

JavaScript numbers are modelled as `real`. Integer fields decoded from frames
are `int`, with their 16-bit two's-complement range stated explicitly. The Sterzo
code uses `bv32` because JavaScript evaluates `<<`, `>>`, `|` and `^` on 32-bit
integers.

Behaviour of the code that the model keeps as written:

- **Short FTMS frames.** Indoor Bike Data frames are not bounds-checked. A
  field that runs past the end of the buffer makes `getInt16` throw, which ends
  the handler; a resistance value stored before the throw stays.
- **FTMS flags.** The code counts flag bit 0 *set* as "instantaneous speed
  present". In the Indoor Bike Data characteristic of the Fitness Machine
  Service specification (section 4.9) bit 0 is "More Data", and speed is
  present when it is *clear*. The offsets of resistance and power follow the
  code.
- **The incline frame.** The frame is opcode 0x11 followed by one sint16 in
  tenths of a percent. Opcode 0x11 of the Fitness Machine Control Point
  (section 4.16 of the same specification) is Set Indoor Bike Simulation
  Parameters, whose parameters are wind speed, grade, rolling resistance and
  wind resistance; the code sends only the first field.
- **Steering sign.** The steering axis has the sign of the angle; it is not
  negated.
- **Low speed ratio.** `speedRatio` is capped above at 1 and not below. The
  model requires a non-negative speed.
- **A stuck handshake.** A failed `startNotifications` on the challenge
  characteristic, or a failed trigger write, rejects the handshake at once.
  Once notifications have started and the trigger write is accepted, a
  handshake that never sees status 0xFF or 0xFE never settles, so `connect()`
  never returns. `SterzoConnectStatus` then reports `Connecting`.

## Model

| member | source | states |
|---|---|---|
| DataView.GetUint8 | slow-parcours.user.js:590 | `getUint8(offset)`: present exactly when the offset is inside the buffer, value the octet there, in [0, 256) |
| DataView.GetUint16 | slow-parcours.user.js:473 | `getUint16(offset, true)`: present exactly when two octets remain, value lo + 256·hi in [0, 65536) |
| DataView.GetInt16 | slow-parcours.user.js:488 | `getInt16(offset, true)`: present exactly when two octets remain, value in [-32768, 32768) and congruent to the unsigned reading mod 65536 |
| DataView.ToInt16 | slow-parcours.user.js:506 | the value `setInt16` stores is v taken modulo 65536 into [−32768, 32768): congruent to v, and v itself when it fits |
| DataView.Uint16Bytes | slow-parcours.user.js:584 | `setUint16(offset, v, true)` stores two octets whose little-endian value is v mod 65536 |
| DataView.Int16Bytes | slow-parcours.user.js:506 | `setInt16(offset, v, true)` stores two octets whose little-endian value is v mod 65536 (the two's-complement pattern) |
| DataView.Uint16RoundTrip | slow-parcours.user.js:584 | reading back a `setUint16` gives the value mod 65536 |
| DataView.Int16RoundTrip | slow-parcours.user.js:506 | reading back a `setInt16` gives the value wrapped to 16 bits, and the value itself when it fits |
| DataView.Int16BytesOfRead | slow-parcours.user.js:488 | writing a value read by `getInt16` reproduces the two octets it came from |
| Physics.Clamp | slow-parcours.user.js:244 | `Math.max(lo, Math.min(hi, x))` (also at lines 310, 326 and 501) lies in [lo, hi], is x inside the range and the nearer bound outside it |
| Physics.JsRound | slow-parcours.user.js:502 | `Math.round` is the integer r with x − 0.5 < r ≤ x + 0.5 (halves round up) |
| Physics.Smooth | slow-parcours.user.js:331 | one smoothing step leaves the gap to the raw value equal to the old gap times 1 − α |
| Physics.SmoothBetween | slow-parcours.user.js:177 | one smoothing step with α in [0, 1] stays between the old and the raw value and shrinks the gap to the raw value by the factor 1 − α |
| Physics.GameDrag | slow-parcours.user.js:214-217 | drag·mass = ½·ρ·CdA, and drag is positive for positive CdA and density |
| Physics.EstimatedResistance | slow-parcours.user.js:243-244 | the estimate is 30 + 10·grade clamped to [0, 200]: 0 from grade −3 down, 200 from grade 17 up |
| Physics.EstimatedResistanceMonotone | slow-parcours.user.js:243-244 | a steeper grade never gives a lower estimate |
| Physics.Efficiency | slow-parcours.user.js:302-304 | the engine efficiency is in [0.75, 1] for non-negative speed |
| Physics.MapWattsToThrottle | slow-parcours.user.js:282-311 | the throttle is in [0, 1] |
| Physics.ThrottleClosedForm | slow-parcours.user.js:282-311 | throttle = clamp(watts·scaling·k, 0, 1) with k = 1/(max(0.5, v)·mass·10·efficiency) > 0 |
| Physics.ThrottleZeroWithoutPower | slow-parcours.user.js:282-311 | no power (watts ≤ 0, scaling ≥ 0) gives throttle 0 |
| Physics.ThrottleMonotone | slow-parcours.user.js:282-311 | for fixed speed, mass and scaling ≥ 0, more watts never give less throttle |
| Physics.SteerAxis | slow-parcours.user.js:315-328 | the axis is in [-1, 1], 0 inside the deadband, ±1 from the maximum angle on, positive exactly for angles above the deadband and negative exactly below its negative (no sign inversion) |
| Physics.SteerAxisLinear | slow-parcours.user.js:315-328 | within ±20° the axis is angle/20, an odd function |
| Physics.SteerAxisMonotone | slow-parcours.user.js:315-328 | a larger angle never gives a smaller axis |
| Telemetry.Initial | slow-parcours.user.js:123-130 | the initial record: both links disconnected, flags false, numbers 0, game status "Searching..." |
| Telemetry.WithRealSpeed | slow-parcours.user.js:175-180 | the realSpeed setter stores the speed and closes 10% of the smoothSpeed gap, nothing else |
| Telemetry.StateManager.constructor | slow-parcours.user.js:122-131 | a new manager holds the initial record |
| Telemetry.StateManager.SetWatts | slow-parcours.user.js:145 | only watts changes |
| Telemetry.StateManager.SetSmoothWatts | slow-parcours.user.js:148 | only smoothWatts changes |
| Telemetry.StateManager.SetAngle | slow-parcours.user.js:151 | only angle changes |
| Telemetry.StateManager.SetTrainerStatus | slow-parcours.user.js:154 | only trainerStatus changes |
| Telemetry.StateManager.SetSterzoStatus | slow-parcours.user.js:157 | only sterzoStatus changes |
| Telemetry.StateManager.SetGameStatus | slow-parcours.user.js:160 | only gameStatus changes |
| Telemetry.StateManager.SetIsControllable | slow-parcours.user.js:163 | only isControllable changes |
| Telemetry.StateManager.SetTrainerReportsResistance | slow-parcours.user.js:166 | only trainerReportsResistance changes |
| Telemetry.StateManager.SetResistanceLevel | slow-parcours.user.js:169 | only resistanceLevel changes |
| Telemetry.StateManager.SetRealGrade | slow-parcours.user.js:172 | only realGrade changes |
| Telemetry.StateManager.SetRealSpeed | slow-parcours.user.js:175-179 | the record becomes WithRealSpeed of the old one |
| Telemetry.DebugInput | slow-parcours.user.js:640-650 | ignored while the trainer is connected; otherwise "=" or "+" adds 20 W, "-" or "_" subtracts 20 W floored at 0, other keys change nothing |
| Telemetry.DebugInputRaiseLower | slow-parcours.user.js:640-650 | from non-negative power both keys keep it non-negative, and a raise followed by a lower restores the record |
| Telemetry.HandleDebugInput | slow-parcours.user.js:640-650 | the manager's record becomes DebugInput of the old one |
| Ftms.Present | slow-parcours.user.js:477-493 | `flags & (1 << k)` is non-zero: bit k of the flags word (definition; PresentBelow states that higher bits do not affect it) |
| Ftms.ResistanceOffset | slow-parcours.user.js:473-485 | the resistance field starts at 2 + 2·(bits 0–3 set) + 3·bit 4, between 2 and 13 |
| Ftms.PowerOffset | slow-parcours.user.js:473-490 | the power field starts 2 octets later when bit 5 is set |
| Ftms.IndoorBikeData | slow-parcours.user.js:472-495 | the fields `handleFtmsData` stores from one frame (definition; its contract is stated by the lemmas below) |
| Ftms.IndoorBikeDataFields | slow-parcours.user.js:472-495 | resistance is decoded exactly when bit 5 is set and fits, power exactly when bit 6 is set, the resistance read did not fail and power fits; each value is the int16 at its offset |
| Ftms.IndoorBikeDataShort | slow-parcours.user.js:473 | a frame without a whole flags word decodes nothing |
| Ftms.PresentBelow | slow-parcours.user.js:477-493 | adding multiples of 2^j to the flags does not change any bit below j |
| Ftms.IndoorBikeDataIgnoresHighFlags | slow-parcours.user.js:472-495 | flag bits 7 and above (and bit 7 of the first octet) do not change the decoding |
| Ftms.IndoorBikeDataExample | slow-parcours.user.js:472-495 | a frame with bits 5 and 6 decodes resistance −12 and power 250; one whose power field is cut short decodes nothing |
| Ftms.InclineValue | slow-parcours.user.js:501-502 | the value is Math.round(clamp(grade, −25, 40)·10), so it lies in [−250, 400] |
| Ftms.InclineFrame | slow-parcours.user.js:503-506 | the frame is 3 octets, opcode 0x11, and its int16 at offset 1 is the incline value |
| Ftms.InclineFrameRoundTrip | slow-parcours.user.js:498-509 | the decoded incline/10 is within 0.05 of the clamped grade, and equal to it for grades in tenths |
| Ftms.InclineFrameSaturates | slow-parcours.user.js:501-502 | grades from 40 up send 400, grades from −25 down send −250 |
| Ftms.CpsPower | slow-parcours.user.js:457 | the CPS power is present exactly for frames of at least 4 octets, and it is the int16 of octets 2–3 |
| Trainer.TrainerConnect | slow-parcours.user.js:425-469 | what `connect()` leaves in the record (definition; its contract is stated by the two lemmas below) |
| Trainer.TrainerConnectStatus | slow-parcours.user.js:425-469 | connect ends connected exactly when the device connected and FTMS notifications or the CPS fallback started; it raises isControllable exactly when the control request was accepted; nothing else changes |
| Trainer.TrainerConnectFailureKeepsControl | slow-parcours.user.js:443-469 | a failure after the accepted control request reports disconnected and leaves isControllable true |
| Trainer.TrainerDisconnect | slow-parcours.user.js:461-464 | the disconnect handler sets disconnected and clears isControllable, nothing else |
| Trainer.ApplyIndoorBikeData | slow-parcours.user.js:472-495 | a frame sets resistance (and raises the report flag) and power exactly for the fields it decodes, nothing else |
| Trainer.ApplyCpsData | slow-parcours.user.js:456-458 | a CPS frame shorter than 4 octets changes nothing, otherwise it sets watts to its power |
| Trainer.TrainerController.constructor | slow-parcours.user.js:420-423 | no control point, no writes, no listeners |
| Trainer.TrainerController.Connect | slow-parcours.user.js:425-469 | the record becomes TrainerConnect of the old one; the control point is held and [0x00] written exactly when FTMS was found; listeners attached as connect succeeds |
| Trainer.TrainerController.OnDisconnect | slow-parcours.user.js:461-464 | the record becomes TrainerDisconnect of the old one |
| Trainer.TrainerController.HandleFtmsData | slow-parcours.user.js:472-495 | the running offset walk leaves the record equal to ApplyIndoorBikeData of the old one |
| Trainer.TrainerController.HandleCpsData | slow-parcours.user.js:456-458 | the record becomes ApplyCpsData of the old one |
| Trainer.TrainerController.SendIncline | slow-parcours.user.js:498-509 | nothing is written without a control point, otherwise exactly the incline frame is appended |
| Sterzo.ResponseCode | slow-parcours.user.js:517-522 | the response code is below 65336 |
| Sterzo.ShiftAmount | slow-parcours.user.js:518 | the shift n is below 11 |
| Sterzo.ShiftAmountIsRemainder | slow-parcours.user.js:518 | the shift is `challenge % 11` |
| Sterzo.RotatedIsRotateLeft | slow-parcours.user.js:518-519 | for a 16-bit challenge c and a shift n < 11, bit i of `((c << n) | (c >> (16 - n))) % 65536` is bit (i − n) mod 16 of c for i < 16 and clear above: a 16-bit rotate left by n |
| Sterzo.RotatedByZero | slow-parcours.user.js:519 | a rotation by 0 is the challenge itself |
| Sterzo.ResponseCodeExample | slow-parcours.user.js:517-522 | challenge 12345 gets code 18182 |
| Sterzo.ResponseFrame | slow-parcours.user.js:580-584 | the response frame is 4 octets: 0x03, 0x11, then the code as uint16 LE |
| Sterzo.Challenge | slow-parcours.user.js:573 | the challenge read by `getUint16(2, true)` is a 16-bit value |
| Sterzo.Begin | slow-parcours.user.js:605-609 | failed notifications reject with no listener and no write; otherwise the trigger [0x03, 0x10] is written and a failed trigger rejects |
| Sterzo.Step | slow-parcours.user.js:566-602 | one notification of `onValue` (definition; its contract is stated by StepEffects) |
| Sterzo.Run | slow-parcours.user.js:563-611 | the handshake after the notifications delivered so far, in order (definition; its contract is stated by the Run lemmas) |
| Sterzo.StepEffects | slow-parcours.user.js:566-602 | one notification writes only when it is a challenge in the challenge stage (exactly its response), moves on only if that write was accepted, and detaches only on status 0xFF or 0xFE in the finished stage; in the finished stage status 0xFF resolves and 0xFE rejects a pending promise, and a settled promise stays as it was |
| Sterzo.RunKeepsSettlement | slow-parcours.user.js:589-599 | a settled handshake stays settled the same way |
| Sterzo.RunAfterDetach | slow-parcours.user.js:597-598 | after the listener is removed no notification changes anything |
| Sterzo.RunResolvesOnlyAfterResponse | slow-parcours.user.js:563-611 | the handshake resolves only after a response frame for some challenge was written |
| Sterzo.HandshakeAccepted | slow-parcours.user.js:563-611 | a challenge answered and acknowledged with 0xFF resolves, having written the trigger and the response |
| Sterzo.HandshakeRefused | slow-parcours.user.js:563-611 | a challenge answered and refused with 0xFE rejects and detaches, having written the trigger and the response |
| Sterzo.PerformHandshake | slow-parcours.user.js:563-611 | the loop over notifications ends in the state Run of Begin gives |
| Sterzo.SterzoConnectStatus | slow-parcours.user.js:524-561 | the status `connect()` ends with (definition; its contract is stated by the two lemmas below) |
| Sterzo.SterzoConnectedOnlyAfterResponse | slow-parcours.user.js:524-561 | connect reports connected only after the handshake wrote a response and the steering notifications started |
| Sterzo.SterzoRefusedStaysDisconnected | slow-parcours.user.js:524-561 | a handshake refused with 0xFE leaves the Sterzo disconnected |
| Sterzo.ApplySteering | slow-parcours.user.js:546-550 | a steering notification shorter than 4 octets is ignored; otherwise its angle is stored |
| Sterzo.SterzoController.constructor | slow-parcours.user.js:513-515 | the controller holds the shared manager, has written nothing and has no listeners |
| Sterzo.SterzoController.Connect | slow-parcours.user.js:524-561 | the status becomes SterzoConnectStatus, the handshake's writes are appended, listeners are attached exactly on success |
| Sterzo.SterzoController.OnSteeringValue | slow-parcours.user.js:546-550 | the record becomes ApplySteering of the old one |
| Sterzo.SterzoController.OnDisconnect | slow-parcours.user.js:552-554 | only the Sterzo status changes, to disconnected |
| Engine.PhysicsTick | slow-parcours.user.js:227-248 | without a player nothing changes; otherwise grade and speed are stored, speed through its smoothing, and the resistance level becomes the [0, 200] estimate only if the trainer does not report resistance |
| Engine.InclineDue | slow-parcours.user.js:250-257 | the rate limiter's condition: player present, trainer controllable, 500 ms since the last send (definition; stated through Update, UpdateEach and the InclineSends lemmas) |
| Engine.Sends | slow-parcours.user.js:253-254 | with a controllable trainer, one tick sends exactly when a player is present and 500 ms have passed (definition) |
| Engine.SendsIsInclineDue | slow-parcours.user.js:250-257 | with a controllable trainer, a tick sends exactly when the rate limiter's InclineDue holds for it |
| Engine.LastSend | slow-parcours.user.js:257 | the lastUpdate a run of ticks leaves (definition; characterised by InclineSendsSpaced) |
| Engine.InclineSends | slow-parcours.user.js:250-257 | the ticks of a run that send, in order (definition; characterised by the three lemmas below) |
| Engine.InclineFrames | slow-parcours.user.js:256 | the control-point frames written for the sending ticks, one InclineFrame of the grade each (definition) |
| Engine.PhysicsTicks | slow-parcours.user.js:227-248 | the record after a run of ticks, one PhysicsTick each (definition) |
| Engine.InclineSendsFromTicks | slow-parcours.user.js:250-257 | every send is a tick of the run at which a player was present |
| Engine.InclineSendsSpaced | slow-parcours.user.js:250-257 | the first send is at least 500 ms after the last one before the run, any two consecutive sends are at least 500 ms apart, and lastUpdate ends at the last send's timestamp |
| Engine.InclineSendsQuiet | slow-parcours.user.js:253-254 | ticks within 500 ms of the last send send nothing and leave lastUpdate unchanged |
| Engine.TicksStep | slow-parcours.user.js:227-248 | one more tick extends the record's fold by one PhysicsTick |
| Engine.SendsStep | slow-parcours.user.js:250-257 | one more tick moves lastUpdate and appends its frame exactly when it sends |
| Engine.InclineScenario | slow-parcours.user.js:250-257 | ticks at 1000 ms and 1200 ms from lastUpdate 0 send once, at 1000 ms: the second is within 500 ms |
| Engine.InclineFivePercentFrame | slow-parcours.user.js:498-509 | a send at grade 5% writes the frame [0x11, 0x32, 0x00], value 50 |
| Engine.PhysicsEngine.constructor | slow-parcours.user.js:201-205 | lastUpdate starts at 0 |
| Engine.PhysicsEngine.Update | slow-parcours.user.js:227-258 | the record becomes PhysicsTick of the old one; when a player is present, the trainer controllable and 500 ms have passed, the incline is sent and lastUpdate moves to the timestamp, otherwise neither happens |
| Engine.PhysicsEngine.UpdateEach | slow-parcours.user.js:227-258 | a loop of update() calls leaves the record equal to PhysicsTicks; with a controllable trainer lastUpdate becomes LastSend and the writes grow by InclineFrames of InclineSends (nothing if no control point); without control neither lastUpdate nor the writes change |
| Gamepad.ThrottleButton | slow-parcours.user.js:335-336 | the accelerator is pressed exactly when throttle > 0.05, its value is the throttle then and 0 otherwise |
| Gamepad.ThrottleFor | slow-parcours.user.js:333-336 | the accelerator is pressed exactly when its value is positive, and the value is 0 or in (0.05, 1] |
| Gamepad.SmoothPower | slow-parcours.user.js:331 | a poll closes 15% of the gap between smoothWatts and watts and changes nothing else |
| Gamepad.VirtualGamepad.constructor | slow-parcours.user.js:264-272 | four zero axes and seventeen released buttons |
| Gamepad.VirtualGamepad.Update | slow-parcours.user.js:313-340 | axes[0] becomes SteerAxis of the angle, buttons[7] the throttle button of the smoothed power, no other axis or button changes, then the physics engine runs |
| Session.Apply | slow-parcours.user.js:616-657 | what one browser event does to the record, through its handler (definition) |
| Session.Replay | slow-parcours.user.js:616-657 | the record after a sequence of events, oldest first (definition; its contract is stated by the lemmas below) |
| Session.ReplayReportingSticky | slow-parcours.user.js:487-490 | once raised, trainerReportsResistance stays raised across any events |
| Session.ReplayReportsIff | slow-parcours.user.js:487-490 | the flag is raised exactly when it was raised before or some frame carried resistance |
| Session.ReplayFromInitialReports | slow-parcours.user.js:487-490 | from start-up, the flag is raised exactly after a frame carrying resistance |
| Session.ReplayKeepsReportedResistance | slow-parcours.user.js:246-248 | while resistance is reported, only Indoor Bike Data frames carrying a resistance field change the level; power-only frames, polls and every other event leave it |
| Session.ReplayEstimateOnBar | slow-parcours.user.js:243-248 | without reported resistance the level stays in [0, 200] |
| Session.ReplayControlUntilDisconnect | slow-parcours.user.js:443-464 | isControllable, once raised, stays raised until a trainer disconnect event |
| Session.Userscript.constructor | slow-parcours.user.js:617-626 | the objects share one StateManager holding the initial record |
| Session.Userscript.Dispatch | slow-parcours.user.js:616-657 | one event leaves the record equal to Apply of the old one; a poll sets the pad's timestamp to its time, axes[0] to SteerAxis of the angle and buttons[7] to ThrottleFor of the smoothed record, leaves the other axes and buttons, and writes an incline frame and moves lastUpdate exactly when InclineDue holds; other events leave the pad's timestamp, axes and buttons and lastUpdate alone; pairing the trainer writes [0x00] and attaches listeners as TrainerController.Connect does, pairing the Sterzo appends the handshake's writes and attaches listeners only on success; no other event changes either controller's writes or listeners |

## Left out

- The HUD web component, `StateManager.render` and `initUI`: user interface only, no state of the model.
- `GameHook` (the devtools hook, the animation-frame hijack, the scene search) and `updateTuning`: they depend on the game's three.js objects. The player is an `Option<Pose>` input.
- Pitch to grade through `Math.tan`: the grade is an input.
- The float32 decode of the steering angle: the decoded angle is an input of the steering event.
- `navigator.bluetooth` device, service and characteristic discovery, `startNotifications` and `writeValue`. Each awaited step's success or failure is an input record (`ConnectOutcome`, `SterzoOutcome`, `Notification.writeAccepted`). Listener delivery is assumed: an event in `Session` is one a listener received.
- The 500 ms `setTimeout` delays in the handshake, and the interleaving of the async `onValue` callbacks: notifications are processed one at a time, in order.
- The transient `'connecting'` status inside `connect()`: each connect call is one step, and only the status it ends with is visible to the other events.
- The `getGamepads` proxy, the three.js injection and `enableProxy`: browser wiring. A poll is the `Poll` event, and `performance.now()` is its time.
- IEEE doubles, NaN and infinities: numbers are reals.
- Physics.MapWattsToThrottle: requires speed ≥ 0 and mass > 0. A negative speed, which can make the efficiency divisor zero, is not modelled.
- Gamepad.VirtualGamepad.Update: requires the stored speed ≥ 0, for the same reason; Session.Userscript.Dispatch therefore requires a non-negative player speed.
- The global `physicsEngine` that `VirtualGamepad.update` calls is a field of the gamepad.
- Bluetooth service and characteristic UUIDs: they only select devices.
