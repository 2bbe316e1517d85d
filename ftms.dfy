/**
 * Octet framing for the smart trainer: the Indoor Bike Data notification of
 * the Fitness Machine Service (read with the script's own flag layout), the
 * incline command written to the control point, and the Cycling Power
 * Measurement fallback.
 */
module Ftms {
  import opened Wrappers
  import opened DataView
  import opened Physics

  /** 2^k. */
  function Pow2(k: nat): (p: nat)
    ensures p >= 1
  {
    if k == 0 then 1 else 2 * Pow2(k - 1)
  }

  /** flags & (1 << k) is non-zero: bit k of a non-negative flags word. */
  predicate Present(flags: nat, k: nat)
  {
    if k == 0 then flags % 2 == 1 else Present(flags / 2, k - 1)
  }

  /** 1 for a set flag, 0 for a clear one. */
  function Count(b: bool): nat
  {
    if b then 1 else 0
  }

  /** Where the resistance field sits: after the 2-octet flags, 2 octets for
      each of bits 0 to 3 that is set, and 3 octets when bit 4 is set. */
  function ResistanceOffset(flags: nat): (offset: nat)
    ensures 2 <= offset <= 13
  {
    2 + 2 * (Count(Present(flags, 0)) + Count(Present(flags, 1)) + Count(Present(flags, 2))
             + Count(Present(flags, 3))) + 3 * Count(Present(flags, 4))
  }

  /** Where the power field sits: after the resistance field when bit 5 is set. */
  function PowerOffset(flags: nat): (offset: nat)
    ensures Present(flags, 5) ==> offset == ResistanceOffset(flags) + 2
    ensures !Present(flags, 5) ==> offset == ResistanceOffset(flags)
  {
    ResistanceOffset(flags) + 2 * Count(Present(flags, 5))
  }

  /** The fields the notification handler stores; None where it stores nothing. */
  datatype IndoorBikeFields = IndoorBikeFields(resistance: Option<int>, power: Option<int>)

  /** What handleFtmsData stores for a notification. A read past the end of the
      buffer throws and ends the handler: a short flags field stores nothing, a
      short resistance field stores nothing, a short power field keeps the
      resistance already stored. */
  function IndoorBikeData(frame: seq<byte>): (d: IndoorBikeFields)
  {
    match GetUint16(frame, 0)
    case None => IndoorBikeFields(None, None)
    case Some(flags) =>
      var resistance := if Present(flags, 5) then GetInt16(frame, ResistanceOffset(flags)) else None;
      if Present(flags, 5) && resistance.None? then
        IndoorBikeFields(None, None)
      else
        IndoorBikeFields(resistance, if Present(flags, 6) then GetInt16(frame, PowerOffset(flags)) else None)
  }

  /** Each field is stored exactly when its flag is set and it, and every field
      read before it, lies inside the buffer; the stored value is the sint16 at
      the field's offset. */
  lemma IndoorBikeDataFields(frame: seq<byte>)
    requires |frame| >= 2
    ensures var flags := frame[0] as int + 256 * frame[1] as int;
            var d := IndoorBikeData(frame);
            && (d.resistance.Some? <==> Present(flags, 5) && ResistanceOffset(flags) + 2 <= |frame|)
            && (d.resistance.Some? ==> d.resistance == GetInt16(frame, ResistanceOffset(flags)))
            && (d.power.Some? <==> Present(flags, 6) && PowerOffset(flags) + 2 <= |frame|
                                   && (Present(flags, 5) ==> ResistanceOffset(flags) + 2 <= |frame|))
            && (d.power.Some? ==> d.power == GetInt16(frame, PowerOffset(flags)))
  {
    var flags := frame[0] as int + 256 * frame[1] as int;
    assert GetUint16(frame, 0) == Some(flags);
    var r, p := ResistanceOffset(flags), PowerOffset(flags);
    assert GetInt16(frame, r).Some? <==> r + 2 <= |frame|;
    assert GetInt16(frame, p).Some? <==> p + 2 <= |frame|;
  }

  /** A buffer too short for the flags field stores nothing. */
  lemma IndoorBikeDataShort(frame: seq<byte>)
    requires |frame| < 2
    ensures IndoorBikeData(frame) == IndoorBikeFields(None, None)
  {
  }

  /** Adding a multiple of 2^j leaves every bit below j unchanged. */
  lemma {:induction false} PresentBelow(x: nat, y: nat, j: nat, k: nat)
    requires k < j
    ensures Present(x + Pow2(j) * y, k) == Present(x, k)
  {
    var z := Pow2(j - 1) * y;
    assert Pow2(j) * y == 2 * z;
    if k > 0 {
      assert (x + 2 * z) / 2 == x / 2 + z;
      PresentBelow(x / 2, y, j - 1, k - 1);
    }
  }

  /** Bits 0 to 6 of a 16-bit flags word depend on the low seven bits of its first octet only. */
  lemma PresentLowBits(lo: nat, hi: nat, k: nat)
    requires lo < 256 && hi < 256 && k < 7
    ensures Present(lo + 256 * hi, k) == Present(lo % 128, k)
  {
    assert Pow2(7) == 128;
    assert lo + 256 * hi == lo % 128 + Pow2(7) * (lo / 128 + 2 * hi);
    PresentBelow(lo % 128, lo / 128 + 2 * hi, 7, k);
  }

  /** Flag bits 7 to 15 are ignored: two notifications that differ only there store the same. */
  lemma IndoorBikeDataIgnoresHighFlags(frame: seq<byte>, other: seq<byte>)
    requires |frame| >= 2 && |other| == |frame| && other[2..] == frame[2..]
    requires other[0] % 128 == frame[0] % 128
    ensures IndoorBikeData(other) == IndoorBikeData(frame)
  {
    var f := frame[0] as int + 256 * frame[1] as int;
    var g := other[0] as int + 256 * other[1] as int;
    forall k: nat | k < 7
      ensures Present(f, k) == Present(g, k)
    {
      PresentLowBits(frame[0] as int, frame[1] as int, k);
      PresentLowBits(other[0] as int, other[1] as int, k);
    }
    assert ResistanceOffset(f) == ResistanceOffset(g);
    assert PowerOffset(f) == PowerOffset(g);
    forall o: nat | 2 <= o && o + 2 <= |frame|
      ensures GetInt16(frame, o) == GetInt16(other, o)
    {
      assert frame[o] == frame[2..][o - 2] == other[2..][o - 2] == other[o];
      assert frame[o + 1] == frame[2..][o - 1] == other[2..][o - 1] == other[o + 1];
    }
  }

  /** An example frame: flags 0b1100000 (resistance and power present), then
      resistance -12 and power 250. */
  lemma IndoorBikeDataExample()
    ensures IndoorBikeData([0x60, 0x00, 0xF4, 0xFF, 0xFA, 0x00]) == IndoorBikeFields(Some(-12), Some(250))
    ensures IndoorBikeData([0x40, 0x00, 0xFA]) == IndoorBikeFields(None, None)
  {
  }

  /** The control-point value for a grade: tenths of a percent, the grade first
      held inside [-25, 40] percent, then rounded to the nearest tenth, halves up. */
  function InclineValue(grade: real): (v: int)
    ensures -250 <= v <= 400
    ensures Clamp(-25.0, 40.0, grade) * 10.0 - 0.5 < v as real <= Clamp(-25.0, 40.0, grade) * 10.0 + 0.5
  {
    JsRound(Clamp(-25.0, 40.0, grade) * 10.0)
  }

  /** The command sendIncline builds: opcode 0x11 (Set Indoor Bike Simulation
      Parameters in the Fitness Machine Service) followed by the value as one
      little-endian sint16. */
  function InclineFrame(grade: real): (f: seq<byte>)
    ensures |f| == 3 && f[0] == 0x11
    ensures GetInt16(f, 1) == Some(InclineValue(grade))
  {
    var value := InclineValue(grade);
    Int16RoundTrip(value);
    assert ([0x11] + Int16Bytes(value))[1..] == Int16Bytes(value);
    [0x11] + Int16Bytes(value)
  }

  /** Decoding an incline command gives back the clamped grade to within half a
      tenth of a percent, and exactly when the clamped grade is a whole number of
      tenths. */
  lemma InclineFrameRoundTrip(grade: real, tenths: int)
    ensures var g := GetInt16(InclineFrame(grade), 1).value as real / 10.0;
            -0.05 < g - Clamp(-25.0, 40.0, grade) <= 0.05
    ensures Clamp(-25.0, 40.0, grade) == tenths as real / 10.0 ==>
            GetInt16(InclineFrame(grade), 1) == Some(tenths)
  {
  }

  /** Grades beyond the limits are sent as the limits. */
  lemma InclineFrameSaturates(grade: real)
    ensures grade >= 40.0 ==> GetInt16(InclineFrame(grade), 1) == Some(400)
    ensures grade <= -25.0 ==> GetInt16(InclineFrame(grade), 1) == Some(-250)
  {
  }

  /** The Cycling Power Measurement fallback: instantaneous power is the sint16 at
      offset 2; a shorter value throws and stores nothing. */
  function CpsPower(frame: seq<byte>): (r: Option<int>)
    ensures r.Some? <==> |frame| >= 4
    ensures r.Some? ==> (-0x8000 <= r.value < 0x8000 && Int16Bytes(r.value) == frame[2..4])
  {
    if |frame| >= 4 then Int16BytesOfRead(frame, 2); GetInt16(frame, 2) else GetInt16(frame, 2)
  }
}
