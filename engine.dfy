/**
 * PhysicsEngine: once per gamepad poll, copy the game's grade and speed into
 * the telemetry record, estimate a resistance level while the trainer reports
 * none, and send the grade to a controllable trainer at most every 500 ms.
 */
module Engine {
  import opened Wrappers
  import opened DataView
  import opened Config
  import opened Physics
  import opened Telemetry
  import opened Ftms
  import opened Trainer

  /** What the game's player object yields this tick: the road grade in percent
      (already derived from the pitch) and the speed in metres per second. */
  datatype Pose = Pose(grade: real, speed: real)

  /** What one update() does to the telemetry record. Without a player it returns
      at once; otherwise grade and speed are stored (speed through its smoothing
      setter) and, unless the trainer reports resistance, the estimate replaces
      the resistance level. */
  function PhysicsTick(t: Telemetry, player: Option<Pose>): (r: Telemetry)
    ensures player.None? ==> r == t
    ensures player.Some? ==> && r.realGrade == player.value.grade && r.realSpeed == player.value.speed
                             && r.smoothSpeed == WithRealSpeed(t, player.value.speed).smoothSpeed
    ensures r.(realGrade := t.realGrade, realSpeed := t.realSpeed, smoothSpeed := t.smoothSpeed,
               resistanceLevel := t.resistanceLevel) == t
    ensures r.trainerReportsResistance == t.trainerReportsResistance && r.isControllable == t.isControllable
    ensures t.trainerReportsResistance ==> r.resistanceLevel == t.resistanceLevel
    ensures player.Some? && !t.trainerReportsResistance ==>
              r.resistanceLevel == EstimatedResistance(player.value.grade) && 0.0 <= r.resistanceLevel <= 200.0
  {
    match player
    case None => t
    case Some(pose) =>
      var t1 := WithRealSpeed(t.(realGrade := pose.grade), pose.speed);
      if t.trainerReportsResistance then t1 else t1.(resistanceLevel := EstimatedResistance(pose.grade))
  }

  /** The rate limiter: an incline goes out when a player is present, the trainer
      is controllable and at least 500 ms have passed since the last one. */
  predicate InclineDue(t: Telemetry, player: Option<Pose>, timestamp: real, lastUpdate: real)
  {
    player.Some? && t.isControllable && timestamp - lastUpdate >= ResistanceUpdateRate
  }

  /** With a controllable trainer, Sends is the rate limiter's test of one tick. */
  lemma SendsIsInclineDue(t: Telemetry, lastUpdate: real, tick: Tick)
    requires t.isControllable
    ensures Sends(lastUpdate, tick) <==> InclineDue(t, tick.player, tick.timestamp, lastUpdate)
  {
  }

  /** One call of update(): the timestamp it is given and the player the game
      has at that moment. */
  datatype Tick = Tick(timestamp: real, player: Option<Pose>)

  /** With a controllable trainer, a tick sends an incline when a player is
      present and 500 ms have passed since the last send. */
  predicate Sends(lastUpdate: real, tick: Tick)
  {
    tick.player.Some? && tick.timestamp - lastUpdate >= ResistanceUpdateRate
  }

  /** lastUpdate after a run of ticks with a controllable trainer. */
  function LastSend(lastUpdate: real, ticks: seq<Tick>): real
  {
    if ticks == [] then lastUpdate
    else
      var prev := LastSend(lastUpdate, ticks[..|ticks| - 1]);
      if Sends(prev, ticks[|ticks| - 1]) then ticks[|ticks| - 1].timestamp else prev
  }

  /** The ticks of a run that send an incline to a controllable trainer, in order. */
  function InclineSends(lastUpdate: real, ticks: seq<Tick>): seq<Tick>
  {
    if ticks == [] then []
    else
      var init := ticks[..|ticks| - 1];
      InclineSends(lastUpdate, init)
        + (if Sends(LastSend(lastUpdate, init), ticks[|ticks| - 1]) then [ticks[|ticks| - 1]] else [])
  }

  /** The control-point frames written for a run of sending ticks. */
  function InclineFrames(sends: seq<Tick>): seq<seq<byte>>
  {
    if sends == [] then []
    else
      InclineFrames(sends[..|sends| - 1])
        + (match sends[|sends| - 1].player case Some(p) => [InclineFrame(p.grade)] case None => [])
  }

  /** The telemetry record after a run of ticks. */
  function PhysicsTicks(t: Telemetry, ticks: seq<Tick>): Telemetry
  {
    if ticks == [] then t else PhysicsTick(PhysicsTicks(t, ticks[..|ticks| - 1]), ticks[|ticks| - 1].player)
  }

  /** Every send is a tick of the run at which a player was present. */
  lemma {:induction false} InclineSendsFromTicks(lastUpdate: real, ticks: seq<Tick>)
    ensures forall x :: x in InclineSends(lastUpdate, ticks) ==> x in ticks && x.player.Some?
  {
    if ticks != [] {
      var init := ticks[..|ticks| - 1];
      var last := ticks[|ticks| - 1];
      InclineSendsFromTicks(lastUpdate, init);
      var s0 := InclineSends(lastUpdate, init);
      var s := InclineSends(lastUpdate, ticks);
      assert forall x :: x in init ==> x in ticks;
      if Sends(LastSend(lastUpdate, init), last) {
        assert s == s0 + [last];
      } else {
        assert s == s0;
      }
    }
  }

  /** The first send comes at least 500 ms after the last send before the run,
      each later one at least 500 ms after the one before it, and lastUpdate
      ends at the time of the last send. */
  lemma {:induction false} InclineSendsSpaced(lastUpdate: real, ticks: seq<Tick>)
    ensures var s := InclineSends(lastUpdate, ticks);
            && (|s| > 0 ==> s[0].timestamp - lastUpdate >= ResistanceUpdateRate)
            && (forall i :: 0 < i < |s| ==> s[i].timestamp - s[i - 1].timestamp >= ResistanceUpdateRate)
            && LastSend(lastUpdate, ticks) == (if |s| == 0 then lastUpdate else s[|s| - 1].timestamp)
  {
    if ticks != [] {
      var init := ticks[..|ticks| - 1];
      var last := ticks[|ticks| - 1];
      InclineSendsSpaced(lastUpdate, init);
      var s0 := InclineSends(lastUpdate, init);
      var s := InclineSends(lastUpdate, ticks);
      if Sends(LastSend(lastUpdate, init), last) {
        assert s == s0 + [last];
        forall i | 0 < i < |s|
          ensures s[i].timestamp - s[i - 1].timestamp >= ResistanceUpdateRate
        {
          if i < |s| - 1 {
            assert s[i] == s0[i] && s[i - 1] == s0[i - 1];
          }
        }
      } else {
        assert s == s0;
      }
    }
  }

  /** Ticks within 500 ms of the last send send nothing and leave lastUpdate alone. */
  lemma {:induction false} InclineSendsQuiet(lastUpdate: real, ticks: seq<Tick>)
    requires forall i :: 0 <= i < |ticks| ==> ticks[i].timestamp - lastUpdate < ResistanceUpdateRate
    ensures InclineSends(lastUpdate, ticks) == [] && LastSend(lastUpdate, ticks) == lastUpdate
  {
    if ticks != [] {
      var init := ticks[..|ticks| - 1];
      assert forall i :: 0 <= i < |init| ==> init[i] == ticks[i];
      InclineSendsQuiet(lastUpdate, init);
    }
  }

  /** One more tick extends the record's fold by one PhysicsTick. */
  lemma TicksStep(t: Telemetry, ticks: seq<Tick>, i: nat)
    requires i < |ticks|
    ensures PhysicsTicks(t, ticks[..i + 1]) == PhysicsTick(PhysicsTicks(t, ticks[..i]), ticks[i].player)
  {
    assert ticks[..i + 1][..i] == ticks[..i];
  }

  /** One more tick sends, and moves lastUpdate, exactly when it is due. */
  lemma SendsStep(lastUpdate: real, ticks: seq<Tick>, i: nat)
    requires i < |ticks|
    ensures var prev := LastSend(lastUpdate, ticks[..i]);
            && LastSend(lastUpdate, ticks[..i + 1]) == (if Sends(prev, ticks[i]) then ticks[i].timestamp else prev)
            && InclineFrames(InclineSends(lastUpdate, ticks[..i + 1]))
                 == InclineFrames(InclineSends(lastUpdate, ticks[..i]))
                    + (if Sends(prev, ticks[i]) then [InclineFrame(ticks[i].player.value.grade)] else [])
  {
    var prefix := ticks[..i + 1];
    assert prefix[..i] == ticks[..i];
    var s0 := InclineSends(lastUpdate, ticks[..i]);
    if Sends(LastSend(lastUpdate, ticks[..i]), ticks[i]) {
      var s1 := s0 + [ticks[i]];
      assert InclineSends(lastUpdate, prefix) == s1;
      assert s1[..|s1| - 1] == s0;
      assert InclineFrames(s1) == InclineFrames(s0) + [InclineFrame(ticks[i].player.value.grade)];
    } else {
      assert InclineSends(lastUpdate, prefix) == s0;
    }
  }

  /** Polls at 1000 ms and 1200 ms after a send at 0 send once, at the first poll. */
  lemma InclineScenario()
    ensures var ticks := [Tick(1000.0, Some(Pose(5.0, 8.0))), Tick(1200.0, Some(Pose(5.0, 8.0)))];
            InclineSends(0.0, ticks) == [ticks[0]]
  {
    var ticks := [Tick(1000.0, Some(Pose(5.0, 8.0))), Tick(1200.0, Some(Pose(5.0, 8.0)))];
    assert ticks[..1] == [ticks[0]];
    assert [ticks[0]][..0] == [];
    assert InclineSends(0.0, [ticks[0]]) == [ticks[0]];
    assert LastSend(0.0, [ticks[0]]) == 1000.0;
    assert !Sends(1000.0, ticks[1]);
  }

  /** A 5 % grade is sent as the value 50: octets 0x11, 0x32, 0x00. */
  lemma InclineFivePercentFrame()
    ensures InclineFrames([Tick(1000.0, Some(Pose(5.0, 8.0)))]) == [[0x11, 0x32, 0x00]]
  {
    assert InclineValue(5.0) == 50 by {
      assert Clamp(-25.0, 40.0, 5.0) * 10.0 == 50.0;
    }
    assert Int16Bytes(50) == [0x32, 0x00];
    assert InclineFrame(5.0) == [0x11, 0x32, 0x00];
    assert [Tick(1000.0, Some(Pose(5.0, 8.0)))][..0] == [];
  }

  class PhysicsEngine {
    var lastUpdate: real
    const sm: StateManager
    const trainer: TrainerController

    constructor(sm: StateManager, trainer: TrainerController)
      ensures this.sm == sm && this.trainer == trainer && lastUpdate == 0.0
    {
      lastUpdate := 0.0;
      this.sm := sm;
      this.trainer := trainer;
    }

    /** update(timestamp). */
    method Update(timestamp: real, player: Option<Pose>)
      modifies this, sm, trainer`writes
      ensures sm.state == PhysicsTick(old(sm.state), player)
      ensures InclineDue(old(sm.state), player, timestamp, old(lastUpdate)) ==>
                lastUpdate == timestamp &&
                trainer.writes == old(trainer.writes) + (if trainer.controlChar then [InclineFrame(player.value.grade)] else [])
      ensures !InclineDue(old(sm.state), player, timestamp, old(lastUpdate)) ==>
                lastUpdate == old(lastUpdate) && trainer.writes == old(trainer.writes)
    {
      if player.None? {
        return;
      }
      var gradePercent := player.value.grade;
      sm.SetRealGrade(gradePercent);
      sm.SetRealSpeed(player.value.speed);
      var estimatedRes := BaseResistance + gradePercent * GradeFactor;
      estimatedRes := Max(0.0, Min(200.0, estimatedRes));
      if !sm.state.trainerReportsResistance {
        sm.SetResistanceLevel(estimatedRes);
      }
      if !sm.state.isControllable {
        return;
      }
      if timestamp - lastUpdate < ResistanceUpdateRate {
        return;
      }
      trainer.SendIncline(gradePercent);
      lastUpdate := timestamp;
    }

    /** update() over a run of gamepad polls, one after the other. */
    method UpdateEach(ticks: seq<Tick>)
      modifies this, sm, trainer`writes
      ensures sm.state == PhysicsTicks(old(sm.state), ticks)
      ensures old(sm.state.isControllable) ==>
                && lastUpdate == LastSend(old(lastUpdate), ticks)
                && trainer.writes == old(trainer.writes) +
                     (if trainer.controlChar then InclineFrames(InclineSends(old(lastUpdate), ticks)) else [])
      ensures !old(sm.state.isControllable) ==>
                lastUpdate == old(lastUpdate) && trainer.writes == old(trainer.writes)
    {
      ghost var t0, l0, w0 := sm.state, lastUpdate, trainer.writes;
      ghost var controllable := sm.state.isControllable;
      ghost var frames: seq<seq<byte>> := [];
      var i := 0;
      while i < |ticks|
        invariant 0 <= i <= |ticks|
        invariant sm.state == PhysicsTicks(t0, ticks[..i])
        invariant sm.state.isControllable == controllable
        invariant controllable ==> lastUpdate == LastSend(l0, ticks[..i])
        invariant controllable ==> frames == InclineFrames(InclineSends(l0, ticks[..i]))
        invariant !controllable ==> lastUpdate == l0 && frames == []
        invariant trainer.writes == w0 + (if trainer.controlChar then frames else [])
      {
        TicksStep(t0, ticks, i);
        SendsStep(l0, ticks, i);
        if controllable && Sends(lastUpdate, ticks[i]) {
          frames := frames + [InclineFrame(ticks[i].player.value.grade)];
        }
        Update(ticks[i].timestamp, ticks[i].player);
        i := i + 1;
      }
      assert ticks[..i] == ticks;
    }
  }
}
