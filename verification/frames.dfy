/**
 * A telemetry frame: a flat record from field name to value that always
 * carries a time `t` and a `packet_type`. Decoders build frames as object
 * literals, which are maps here (a later key replaces an earlier one).
 */
module Frames {
  import opened Wire

  /**
   * The values a decoder puts in a frame. Integers read from the wire are
   * exact; 32- and 64-bit floats stay raw bit patterns; numbers computed in
   * floating point by the decoders are stated over `real`, and a square root
   * is kept as its radicand. Byte strings are `Str`; strings built from
   * UTF-16 units (which may be lone surrogates) are `Units`.
   */
  datatype Value =
    | Int(i: int)
    | Bits32(bits32: nat)
    | Bits64(bits64: nat)
    | Num(r: real)
    | Root(radicand: real)
    | Str(s: string)
    | Units(u: seq<unit16>)
    | List(items: seq<Value>)
    | Obj(fields: map<string, Value>)

  type Frame = map<string, Value>

  /** The value is a JavaScript number (`typeof v === 'number'`). */
  predicate IsNumber(v: Value)
  {
    v.Int? || v.Bits32? || v.Bits64? || v.Num? || v.Root?
  }

  /** One entry of a decoder's `getSupportedPacketTypes`: a packet type and its name. */
  datatype PacketType = PacketType(id: int, name: string)

  /**
   * The numeric reading of a frame field whose floats are 32-bit: integers
   * exactly, bit patterns through `f32`; absent fields and non-numbers read
   * as 0.
   */
  function Number(f: Frame, key: string, f32: nat -> real): real
  {
    if key !in f then 0.0
    else
      match f[key]
      case Int(i) => i as real
      case Bits32(b) => f32(b)
      case Num(r) => r
      case _ => 0.0
  }

  /** A field of the frame, if present. */
  function Lookup(f: Frame, key: string): Option<Value>
  {
    if key in f then Some(f[key]) else None
  }
}
