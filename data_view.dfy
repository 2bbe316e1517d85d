/**
 * The little-endian DataView accessors the script applies to characteristic
 * values. A read past the end of the buffer throws a RangeError in the
 * browser; here it yields None, and each caller decides what the throw aborts.
 */
module DataView {
  import opened Wrappers

  /** One octet of a characteristic value. */
  newtype byte = b: int | 0 <= b < 256

  /** getUint8(offset). */
  function GetUint8(view: seq<byte>, offset: nat): (r: Option<int>)
    ensures r.Some? <==> offset < |view|
    ensures r.Some? ==> 0 <= r.value < 256 && r.value == view[offset] as int
  {
    if offset < |view| then Some(view[offset] as int) else None
  }

  /** getUint16(offset, true): low octet first. */
  function GetUint16(view: seq<byte>, offset: nat): (r: Option<int>)
    ensures r.Some? <==> offset + 2 <= |view|
    ensures r.Some? ==> 0 <= r.value < 0x1_0000
    ensures r.Some? ==> r.value == view[offset] as int + 256 * view[offset + 1] as int
  {
    if offset + 2 <= |view| then Some(view[offset] as int + 256 * view[offset + 1] as int) else None
  }

  /** The two's-complement reading of a 16-bit pattern. */
  function Signed16(u: int): (r: int)
    requires 0 <= u < 0x1_0000
    ensures -0x8000 <= r < 0x8000
    ensures (r - u) % 0x1_0000 == 0
  {
    if u < 0x8000 then u else u - 0x1_0000
  }

  /** getInt16(offset, true). */
  function GetInt16(view: seq<byte>, offset: nat): (r: Option<int>)
    ensures r.Some? <==> offset + 2 <= |view|
    ensures r.Some? ==> -0x8000 <= r.value < 0x8000
    ensures r.Some? ==> (r.value - GetUint16(view, offset).value) % 0x1_0000 == 0
  {
    match GetUint16(view, offset)
    case None => None
    case Some(u) => Some(Signed16(u))
  }

  /** ECMAScript ToInt16 of an integral number: the value taken modulo 2^16 into [-2^15, 2^15). */
  function ToInt16(v: int): (r: int)
    ensures -0x8000 <= r < 0x8000
    ensures (r - v) % 0x1_0000 == 0
    ensures -0x8000 <= v < 0x8000 ==> r == v
  {
    Signed16(v % 0x1_0000)
  }

  /** The two octets setUint16(offset, v, true) stores: v is reduced modulo 2^16. */
  function Uint16Bytes(v: int): (r: seq<byte>)
    ensures |r| == 2
    ensures r[0] as int + 256 * r[1] as int == v % 0x1_0000
  {
    var u := v % 0x1_0000;
    [(u % 256) as byte, (u / 256) as byte]
  }

  /** The two octets setInt16(offset, v, true) stores: the same bit pattern as setUint16. */
  function Int16Bytes(v: int): (r: seq<byte>)
    ensures |r| == 2
    ensures r[0] as int + 256 * r[1] as int == v % 0x1_0000
  {
    Uint16Bytes(v)
  }

  /** Reading back what setUint16 wrote gives the value modulo 2^16. */
  lemma Uint16RoundTrip(v: int)
    ensures GetUint16(Uint16Bytes(v), 0) == Some(v % 0x1_0000)
  {
    var u := v % 0x1_0000;
    assert (u % 256) + 256 * (u / 256) == u;
  }

  /** Reading back what setInt16 wrote gives ToInt16 of the value; in range, the value itself. */
  lemma Int16RoundTrip(v: int)
    ensures GetInt16(Int16Bytes(v), 0) == Some(ToInt16(v))
    ensures -0x8000 <= v < 0x8000 ==> GetInt16(Int16Bytes(v), 0) == Some(v)
  {
    Uint16RoundTrip(v);
  }

  /** The other direction: writing back a value read with getInt16 reproduces the two octets. */
  lemma Int16BytesOfRead(view: seq<byte>, offset: nat)
    requires offset + 2 <= |view|
    ensures Int16Bytes(GetInt16(view, offset).value) == view[offset..offset + 2]
  {
    var lo, hi := view[offset] as int, view[offset + 1] as int;
    var u := lo + 256 * hi;
    assert Signed16(u) % 0x1_0000 == u;
    assert u % 256 == lo && u / 256 == hi;
  }
}
