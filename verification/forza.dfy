/**
 * The Forza Motorsport decoder (src/decoders/forza-motorsport.ts). A packet
 * is the 331-byte "dash" record read with a moving cursor. Frames recorded
 * while the race is off or before the start line are dropped; the decoder
 * remembers the last frame it returned and derives suspension velocities
 * and gear changes from it.
 */
module ForzaDecoder {
  import opened Wire
  import opened Frames
  import opened Layout
  import opened ForzaLayout

  /** `EXPECTED_SIZE`: the only buffer length the decoder accepts. */
  const ExpectedSize: nat := 331

  /** Every Forza frame has packet type 1. */
  const PacketTypeId: int := 1

  /** The `?? 0` fallbacks of the extension fields. */
  const ExtensionDefaults: Frame := map[
    "TireWearFrontLeft" := Int(0), "TireWearFrontRight" := Int(0),
    "TireWearRearLeft" := Int(0), "TireWearRearRight" := Int(0),
    "TrackOrdinal" := Int(0)]

  /**
   * The reads of `decode`, `None` if one throws: the base record, then the
   * extension when the buffer holds 331 bytes, its fields 0 otherwise.
   */
  function ReadFields(buf: seq<byte>): Option<Frame>
  {
    var base := ReadFrom(buf, 0, Base, map[]);
    if base.None? then None
    else if |buf| >= 331 then ReadFrom(buf, 311, Extension, base.value)
    else Some(base.value + ExtensionDefaults)
  }

  /** The frame literal: the fields read, `t: Date.now()` and `packet_type: 1`. */
  function Stamp(fields: Frame, now: int): Frame
  {
    fields["t" := Int(now)]["packet_type" := Int(PacketTypeId)]
  }

  /** A 32-bit float that compares equal to 0: +0 or -0. */
  predicate ZeroBits32(v: Value)
  {
    v == Bits32(0) || v == Bits32(0x8000_0000)
  }

  /** The frame is kept: the race is on, and it is not lap 0 at lap time 0 (the ramp-up). */
  predicate RaceOn(f: Frame)
  {
    && Lookup(f, "IsRaceOn") == Some(Int(1))
    && !(Lookup(f, "LapNumber") == Some(Int(0)) && "CurrentLap" in f && ZeroBits32(f["CurrentLap"]))
  }

  /** `(t - prevT) || 0.016`: a step of 0 is replaced; a negative step is kept. */
  function TimeStep(t: real, prevT: real): (dt: real)
    ensures dt != 0.0
  {
    if t - prevT == 0.0 then 0.016 else t - prevT
  }

  /** An integer field of the frame, 0 when it is absent or not an integer. */
  function IntField(f: Frame, key: string): int
  {
    if key in f && f[key].Int? then f[key].i else 0
  }

  /** `Math.floor(TimestampMS / 1000000) * 1000 + TrackOrdinal`. */
  function RaceID(f: Frame): int
  {
    IntField(f, "TimestampMS") / 1000000 * 1000 + IntField(f, "TrackOrdinal")
  }

  /** A suspension velocity: the change of `travel` per step, or 0 on the first frame. */
  function Velocity(f: Frame, prev: Option<Frame>, travel: string, f32: nat -> real): Value
  {
    if prev.None? then Num(0.0)
    else
      var p := prev.value;
      var dt := TimeStep(Number(f, "CurrentRaceTime", f32), Number(p, "CurrentRaceTime", f32));
      Num((Number(f, travel, f32) - Number(p, travel, f32)) / dt)
  }

  /** `Shifting`: 1 when the gear differs from the previous frame's, 0 on the first frame. */
  function Shifting(f: Frame, prev: Option<Frame>): Value
  {
    if prev.None? then Int(0)
    else Int(if Lookup(f, "Gear") != Lookup(prev.value, "Gear") then 1 else 0)
  }

  /** The fields `calculateDerivedFields` writes. */
  function DerivedFields(f: Frame, prev: Option<Frame>, f32: nat -> real): map<string, Value>
  {
    map[
      "NormalizedSuspensionVelocityFrontLeft" := Velocity(f, prev, "NormalizedSuspensionTravelFrontLeft", f32),
      "NormalizedSuspensionVelocityFrontRight" := Velocity(f, prev, "NormalizedSuspensionTravelFrontRight", f32),
      "NormalizedSuspensionVelocityRearLeft" := Velocity(f, prev, "NormalizedSuspensionTravelRearLeft", f32),
      "NormalizedSuspensionVelocityRearRight" := Velocity(f, prev, "NormalizedSuspensionTravelRearRight", f32),
      "Shifting" := Shifting(f, prev),
      "RaceID" := Int(RaceID(f))]
  }

  /** The frame after `calculateDerivedFields`. */
  function WithDerived(f: Frame, prev: Option<Frame>, f32: nat -> real): Frame
  {
    f + DerivedFields(f, prev, f32)
  }

  /** `decode`: the size gate, the reads, the race-on gate, then the derived fields. */
  function DecodePacket(buf: seq<byte>, now: int, prev: Option<Frame>, f32: nat -> real): (r: Option<Frame>)
    ensures r.Some? ==> |buf| == ExpectedSize
  {
    if |buf| != ExpectedSize then None
    else
      var fields := ReadFields(buf);
      if fields.None? then None
      else
        var frame := Stamp(fields.value, now);
        if !RaceOn(frame) then None else Some(WithDerived(frame, prev, f32))
  }

  /** The previous frame after `decode(buf)`: the frame returned, if any. */
  function NextPrevious(buf: seq<byte>, now: int, prev: Option<Frame>, f32: nat -> real): Option<Frame>
  {
    var r := DecodePacket(buf, now, prev, f32);
    if r.Some? then r else prev
  }

  class Decoder {
    /** The last frame returned, with its derived fields. */
    var previousFrame: Option<Frame>
    /** How a 32-bit float bit pattern reads as a number. */
    const f32: nat -> real

    /** The stored frame, if any, was kept by the race-on gate. */
    ghost predicate Valid()
      reads this
    {
      previousFrame.Some? ==> RaceOn(previousFrame.value)
    }

    constructor(f32: nat -> real)
      ensures Valid() && previousFrame == None && this.f32 == f32
    {
      previousFrame := None;
      this.f32 := f32;
    }

    method Decode(buffer: seq<byte>, now: int) returns (r: Option<Frame>)
      requires Valid()
      modifies this
      ensures Valid()
      ensures r == DecodePacket(buffer, now, old(previousFrame), f32)
      ensures previousFrame == NextPrevious(buffer, now, old(previousFrame), f32)
    {
      if |buffer| != ExpectedSize {
        return None;
      }
      var fields := ReadLayout(buffer, 0, Base, map[]);
      if fields.None? {
        return None;
      }
      if |buffer| >= 331 {
        fields := ReadLayout(buffer, 311, Extension, fields.value);
        if fields.None? {
          return None;
        }
      } else {
        // Dead after the size gate: the `?? 0` fallbacks never apply.
        assert false;
      }
      var frame := Stamp(fields.value, now);
      if !RaceOn(frame) {
        return None;
      }
      frame := CalculateDerivedFields(frame);
      previousFrame := Some(frame);
      return Some(frame);
    }

    /** `calculateDerivedFields`: the derived fields against the stored frame. */
    method CalculateDerivedFields(frame: Frame) returns (r: Frame)
      requires RaceOn(frame)
      ensures r == WithDerived(frame, previousFrame, f32) && RaceOn(r)
    {
      DerivedKeepsGate(frame, previousFrame, f32);
      r := frame;
      if previousFrame.Some? {
        var p := previousFrame.value;
        var dt := TimeStep(Number(frame, "CurrentRaceTime", f32), Number(p, "CurrentRaceTime", f32));
        r := r["NormalizedSuspensionVelocityFrontLeft" :=
          Num((Number(frame, "NormalizedSuspensionTravelFrontLeft", f32) - Number(p, "NormalizedSuspensionTravelFrontLeft", f32)) / dt)];
        r := r["NormalizedSuspensionVelocityFrontRight" :=
          Num((Number(frame, "NormalizedSuspensionTravelFrontRight", f32) - Number(p, "NormalizedSuspensionTravelFrontRight", f32)) / dt)];
        r := r["NormalizedSuspensionVelocityRearLeft" :=
          Num((Number(frame, "NormalizedSuspensionTravelRearLeft", f32) - Number(p, "NormalizedSuspensionTravelRearLeft", f32)) / dt)];
        r := r["NormalizedSuspensionVelocityRearRight" :=
          Num((Number(frame, "NormalizedSuspensionTravelRearRight", f32) - Number(p, "NormalizedSuspensionTravelRearRight", f32)) / dt)];
        r := r["Shifting" := Int(if Lookup(frame, "Gear") != Lookup(p, "Gear") then 1 else 0)];
      } else {
        r := r["NormalizedSuspensionVelocityFrontLeft" := Num(0.0)];
        r := r["NormalizedSuspensionVelocityFrontRight" := Num(0.0)];
        r := r["NormalizedSuspensionVelocityRearLeft" := Num(0.0)];
        r := r["NormalizedSuspensionVelocityRearRight" := Num(0.0)];
        r := r["Shifting" := Int(0)];
      }
      r := r["RaceID" := Int(RaceID(frame))];
      var prev := previousFrame;
      DerivedAsUpdates(frame,
        Velocity(frame, prev, "NormalizedSuspensionTravelFrontLeft", f32),
        Velocity(frame, prev, "NormalizedSuspensionTravelFrontRight", f32),
        Velocity(frame, prev, "NormalizedSuspensionTravelRearLeft", f32),
        Velocity(frame, prev, "NormalizedSuspensionTravelRearRight", f32),
        Shifting(frame, prev), Int(RaceID(frame)));
    }
  }

  /** Writing the six derived fields one after another is the union with their map. */
  lemma DerivedAsUpdates(f: Frame, fl: Value, fr: Value, rl: Value, rr: Value, shifting: Value, id: Value)
    ensures f["NormalizedSuspensionVelocityFrontLeft" := fl]["NormalizedSuspensionVelocityFrontRight" := fr]
             ["NormalizedSuspensionVelocityRearLeft" := rl]["NormalizedSuspensionVelocityRearRight" := rr]
             ["Shifting" := shifting]["RaceID" := id]
         == f + map[
              "NormalizedSuspensionVelocityFrontLeft" := fl, "NormalizedSuspensionVelocityFrontRight" := fr,
              "NormalizedSuspensionVelocityRearLeft" := rl, "NormalizedSuspensionVelocityRearRight" := rr,
              "Shifting" := shifting, "RaceID" := id]
  {
  }

  // ---------------------------------------------------------------------
  // Lemmas: the walk

  /** The reads cover exactly the 331 bytes of the packet. */
  lemma LayoutWidth()
    ensures Width(Base) == 311 && Width(Extension) == 20
    ensures Width(Base) + Width(Extension) == ExpectedSize
    ensures EndsStrict(Base) && EndsStrict(Extension)
  {
    BaseShape();
    ExtensionShape();
  }

  /**
   * On a packet that passes the size gate no read throws, the extension is
   * always read, and no `?? 0` fallback applies.
   */
  lemma FieldsOfPacket(buf: seq<byte>)
    requires |buf| == ExpectedSize
    ensures ReadFrom(buf, 0, Base, map[]).Some?
    ensures ReadFields(buf) == ReadFrom(buf, 311, Extension, ReadFrom(buf, 0, Base, map[]).value)
    ensures ReadFields(buf).Some?
  {
    LayoutWidth();
    ReadFromSomeIff(buf, 0, Base, map[]);
    ReadFromSomeIff(buf, 311, Extension, ReadFrom(buf, 0, Base, map[]).value);
  }

  /** The keys the decoder adds after the walk: the stamp and the derived fields. */
  lemma AddedKeys(f: Frame, prev: Option<Frame>, f32: nat -> real)
    ensures "t" in FrameKeys && "packet_type" in FrameKeys
    ensures DerivedFields(f, prev, f32).Keys <= FrameKeys
    ensures "t" !in DerivedFields(f, prev, f32) && "packet_type" !in DerivedFields(f, prev, f32)
  {
  }

  /** The derived fields leave the fields the gate tests alone, so a kept frame stays kept. */
  lemma DerivedKeepsGate(f: Frame, prev: Option<Frame>, f32: nat -> real)
    requires RaceOn(f)
    ensures RaceOn(WithDerived(f, prev, f32))
  {
    GateNotDerived(f, prev, f32);
  }

  lemma GateNotDerived(f: Frame, prev: Option<Frame>, f32: nat -> real)
    ensures var d := DerivedFields(f, prev, f32);
      "IsRaceOn" !in d && "LapNumber" !in d && "CurrentLap" !in d
  {
  }

  /** No read writes a key the decoder adds afterwards. */
  lemma FieldsAvoidAdded(buf: seq<byte>)
    requires |buf| == ExpectedSize
    ensures ReadFields(buf).Some?
    ensures forall k | k in FrameKeys :: k !in ReadFields(buf).value
  {
    FieldsOfPacket(buf);
    BaseShape();
    ExtensionShape();
    var base := ReadFrom(buf, 0, Base, map[]).value;
    forall k | k in FrameKeys
      ensures k !in ReadFields(buf).value
    {
      KeepsNotNamed(Base, FrameKeys, k);
      ReadFromKeeps(buf, 0, Base, map[], k);
      KeepsNotNamed(Extension, FrameKeys, k);
      ReadFromKeeps(buf, 311, Extension, base, k);
    }
  }

  /** A field that is neither the stamp nor derived reaches the decoded frame unchanged. */
  lemma DerivedKeeps(f: Frame, now: int, prev: Option<Frame>, f32: nat -> real, k: string)
    requires k !in FrameKeys
    ensures Lookup(WithDerived(Stamp(f, now), prev, f32), k) == Lookup(f, k)
  {
    AddedKeys(Stamp(f, now), prev, f32);
  }

  /** The extension writes none of the base fields that stand alone. */
  lemma ExtensionKeepsPinned()
    ensures Keeps(Extension, BasePinned)
  {
  }

  /** The fields the decoder tests or derives from, each from its own offset of the packet. */
  lemma PinnedFields(buf: seq<byte>)
    requires |buf| == ExpectedSize
    ensures ReadFields(buf).Some?
    ensures var m := ReadFields(buf).value;
      && Lookup(m, "IsRaceOn") == ReadScalar(buf, 0, I32)
      && Lookup(m, "TimestampMS") == ReadScalar(buf, 4, U32)
      && Lookup(m, "CurrentLap") == ReadScalar(buf, 292, F32)
      && Lookup(m, "CurrentRaceTime") == ReadScalar(buf, 296, F32)
      && Lookup(m, "LapNumber") == ReadScalar(buf, 300, U16)
      && Lookup(m, "Gear") == ReadScalar(buf, 307, U8)
      && Lookup(m, "Steer") == ReadScalar(buf, 308, I8)
      && Lookup(m, "TrackOrdinal") == ReadScalar(buf, 327, I32)
  {
    FieldsOfPacket(buf);
    var base := ReadFrom(buf, 0, Base, map[]).value;
    WalkFields(buf, base, ReadFrom(buf, 311, Extension, base).value);
  }

  /** The two walks place each of those fields; the packet's length plays no part. */
  lemma WalkFields(buf: seq<byte>, base: Frame, m: Frame)
    requires ReadFrom(buf, 0, Base, map[]) == Some(base)
    requires ReadFrom(buf, 311, Extension, base) == Some(m)
    ensures
      Lookup(m, "IsRaceOn") == ReadScalar(buf, 0, I32)
      && Lookup(m, "TimestampMS") == ReadScalar(buf, 4, U32)
      && Lookup(m, "CurrentLap") == ReadScalar(buf, 292, F32)
      && Lookup(m, "CurrentRaceTime") == ReadScalar(buf, 296, F32)
      && Lookup(m, "LapNumber") == ReadScalar(buf, 300, U16)
      && Lookup(m, "Gear") == ReadScalar(buf, 307, U8)
      && Lookup(m, "Steer") == ReadScalar(buf, 308, I8)
      && Lookup(m, "TrackOrdinal") == ReadScalar(buf, 327, I32)
  {
    BaseFields(buf, 0, map[]);
    ExtensionFields(buf, base);
    PinnedNames();
  }

  lemma PinnedNames()
    ensures "IsRaceOn" in BasePinned && "TimestampMS" in BasePinned && "CurrentLap" in BasePinned
    ensures "CurrentRaceTime" in BasePinned && "LapNumber" in BasePinned && "Gear" in BasePinned
    ensures "Steer" in BasePinned
  {
  }

  /** The base fields that stand alone, at their offsets. */
  lemma BaseFields(buf: seq<byte>, pos: nat, acc: Frame)
    requires ReadFrom(buf, pos, Base, acc).Some?
    ensures var m := ReadFrom(buf, pos, Base, acc).value;
      && Lookup(m, "IsRaceOn") == ReadScalar(buf, pos + 0, I32)
      && Lookup(m, "TimestampMS") == ReadScalar(buf, pos + 4, U32)
      && Lookup(m, "CurrentLap") == ReadScalar(buf, pos + 292, F32)
      && Lookup(m, "CurrentRaceTime") == ReadScalar(buf, pos + 296, F32)
      && Lookup(m, "LapNumber") == ReadScalar(buf, pos + 300, U16)
      && Lookup(m, "Gear") == ReadScalar(buf, pos + 307, U8)
      && Lookup(m, "Steer") == ReadScalar(buf, pos + 308, I8)
  {
    BaseIsRaceOnField(buf, pos, acc);
    BaseTimestampMSField(buf, pos, acc);
    BaseCurrentLapField(buf, pos, acc);
    BaseCurrentRaceTimeField(buf, pos, acc);
    BaseLapNumberField(buf, pos, acc);
    BaseGearField(buf, pos, acc);
    BaseSteerField(buf, pos, acc);
  }

  lemma BaseIsRaceOnField(buf: seq<byte>, pos: nat, acc: Frame)
    requires ReadFrom(buf, pos, Base, acc).Some?
    ensures Lookup(ReadFrom(buf, pos, Base, acc).value, "IsRaceOn") == ReadScalar(buf, pos + 0, I32)
  {
    BaseIsRaceOnAt(buf, pos, acc);
  }

  lemma BaseTimestampMSField(buf: seq<byte>, pos: nat, acc: Frame)
    requires ReadFrom(buf, pos, Base, acc).Some?
    ensures Lookup(ReadFrom(buf, pos, Base, acc).value, "TimestampMS") == ReadScalar(buf, pos + 4, U32)
  {
    BaseTimestampMSAt(buf, pos, acc);
  }

  lemma BaseCurrentLapField(buf: seq<byte>, pos: nat, acc: Frame)
    requires ReadFrom(buf, pos, Base, acc).Some?
    ensures Lookup(ReadFrom(buf, pos, Base, acc).value, "CurrentLap") == ReadScalar(buf, pos + 292, F32)
  {
    BaseCurrentLapAt(buf, pos, acc);
  }

  lemma BaseCurrentRaceTimeField(buf: seq<byte>, pos: nat, acc: Frame)
    requires ReadFrom(buf, pos, Base, acc).Some?
    ensures Lookup(ReadFrom(buf, pos, Base, acc).value, "CurrentRaceTime") == ReadScalar(buf, pos + 296, F32)
  {
    BaseCurrentRaceTimeAt(buf, pos, acc);
  }

  lemma BaseLapNumberField(buf: seq<byte>, pos: nat, acc: Frame)
    requires ReadFrom(buf, pos, Base, acc).Some?
    ensures Lookup(ReadFrom(buf, pos, Base, acc).value, "LapNumber") == ReadScalar(buf, pos + 300, U16)
  {
    BaseLapNumberAt(buf, pos, acc);
  }

  lemma BaseGearField(buf: seq<byte>, pos: nat, acc: Frame)
    requires ReadFrom(buf, pos, Base, acc).Some?
    ensures Lookup(ReadFrom(buf, pos, Base, acc).value, "Gear") == ReadScalar(buf, pos + 307, U8)
  {
    BaseGearAt(buf, pos, acc);
  }

  lemma BaseSteerField(buf: seq<byte>, pos: nat, acc: Frame)
    requires ReadFrom(buf, pos, Base, acc).Some?
    ensures Lookup(ReadFrom(buf, pos, Base, acc).value, "Steer") == ReadScalar(buf, pos + 308, I8)
  {
    BaseSteerAt(buf, pos, acc);
  }

  /** The extension adds the track ordinal at offset 327 and keeps the base fields that stand alone. */
  lemma ExtensionFields(buf: seq<byte>, base: Frame)
    requires ReadFrom(buf, 311, Extension, base).Some?
    ensures var m := ReadFrom(buf, 311, Extension, base).value;
      && Lookup(m, "TrackOrdinal") == ReadScalar(buf, 327, I32)
      && forall n | n in BasePinned :: Lookup(m, n) == Lookup(base, n)
  {
    ExtensionKeepsPinned();
    forall n | n in BasePinned
      ensures Lookup(ReadFrom(buf, 311, Extension, base).value, n) == Lookup(base, n)
    {
      KeepsNotNamed(Extension, BasePinned, n);
      ReadFromKeeps(buf, 311, Extension, base, n);
    }
    ExtensionTrackOrdinalAt(buf, 311, base);
  }

  /** The names the gate tests are not added after the walk. */
  lemma GateNamesNotAdded()
    ensures "IsRaceOn" !in FrameKeys && "LapNumber" !in FrameKeys && "CurrentLap" !in FrameKeys
  {
  }

  // ---------------------------------------------------------------------
  // Lemmas: the gates

  /**
   * A packet decodes exactly when it is 331 bytes long, its `IsRaceOn` word
   * is 1, and it is not lap 0 with a current lap time of +0 or -0.
   */
  lemma DecodeGate(buf: seq<byte>, now: int, prev: Option<Frame>, f32: nat -> real)
    ensures DecodePacket(buf, now, prev, f32).Some? <==>
      && |buf| == ExpectedSize
      && ReadScalar(buf, 0, I32) == Some(Int(1))
      && !(ReadScalar(buf, 300, U16) == Some(Int(0))
           && ReadScalar(buf, 292, F32).Some? && ZeroBits32(ReadScalar(buf, 292, F32).value))
  {
    if |buf| == ExpectedSize {
      GateReads(buf, now);
    }
  }

  /** The race-on gate of a full-size packet, in terms of its bytes. */
  lemma GateReads(buf: seq<byte>, now: int)
    requires |buf| == ExpectedSize
    ensures ReadFields(buf).Some?
    ensures RaceOn(Stamp(ReadFields(buf).value, now)) <==>
      && ReadScalar(buf, 0, I32) == Some(Int(1))
      && !(ReadScalar(buf, 300, U16) == Some(Int(0))
           && ReadScalar(buf, 292, F32).Some? && ZeroBits32(ReadScalar(buf, 292, F32).value))
  {
    PinnedFields(buf);
    var m := ReadFields(buf).value;
    assert Lookup(Stamp(m, now), "IsRaceOn") == Lookup(m, "IsRaceOn");
    assert Lookup(Stamp(m, now), "LapNumber") == Lookup(m, "LapNumber");
    assert Lookup(Stamp(m, now), "CurrentLap") == Lookup(m, "CurrentLap");
  }

  /** A dropped packet leaves the stored frame as it was; a kept one replaces it. */
  lemma PreviousOnlyOnKept(buf: seq<byte>, now: int, prev: Option<Frame>, f32: nat -> real)
    ensures var r := DecodePacket(buf, now, prev, f32);
      NextPrevious(buf, now, prev, f32) == if r.Some? then r else prev
    ensures ReadScalar(buf, 0, I32) != Some(Int(1)) ==> NextPrevious(buf, now, prev, f32) == prev
  {
    DecodeGate(buf, now, prev, f32);
  }

  /** Every frame has `packet_type` 1 and the receive time as `t`. */
  lemma DecodeStamp(buf: seq<byte>, now: int, prev: Option<Frame>, f32: nat -> real)
    requires DecodePacket(buf, now, prev, f32).Some?
    ensures var d := DecodePacket(buf, now, prev, f32).value;
      Lookup(d, "packet_type") == Some(Int(1)) && Lookup(d, "t") == Some(Int(now))
  {
    AddedKeys(Stamp(ReadFields(buf).value, now), prev, f32);
  }

  // ---------------------------------------------------------------------
  // Lemmas: the derived fields

  /** The fields the derived values come from are not added after the walk. */
  lemma SourcesNotAdded()
    ensures "Gear" !in FrameKeys && "CurrentRaceTime" !in FrameKeys && "TimestampMS" !in FrameKeys
    ensures "TrackOrdinal" !in FrameKeys && "Steer" !in FrameKeys
    ensures "NormalizedSuspensionTravelFrontLeft" !in FrameKeys && "NormalizedSuspensionTravelFrontRight" !in FrameKeys
    ensures "NormalizedSuspensionTravelRearLeft" !in FrameKeys && "NormalizedSuspensionTravelRearRight" !in FrameKeys
  {
  }

  /** The gear, race time, timestamp, steering and track of a frame are the packet's. */
  lemma DecodeFields(buf: seq<byte>, now: int, prev: Option<Frame>, f32: nat -> real)
    requires DecodePacket(buf, now, prev, f32).Some?
    ensures var d := DecodePacket(buf, now, prev, f32).value;
      && Lookup(d, "TimestampMS") == ReadScalar(buf, 4, U32)
      && Lookup(d, "CurrentRaceTime") == ReadScalar(buf, 296, F32)
      && Lookup(d, "Gear") == ReadScalar(buf, 307, U8)
      && Lookup(d, "Steer") == ReadScalar(buf, 308, I8)
      && Lookup(d, "TrackOrdinal") == ReadScalar(buf, 327, I32)
  {
    PinnedFields(buf);
    SourcesNotAdded();
    var m := ReadFields(buf).value;
    DerivedKeeps(m, now, prev, f32, "TimestampMS");
    DerivedKeeps(m, now, prev, f32, "CurrentRaceTime");
    DerivedKeeps(m, now, prev, f32, "Gear");
    DerivedKeeps(m, now, prev, f32, "Steer");
    DerivedKeeps(m, now, prev, f32, "TrackOrdinal");
  }

  /**
   * On the first frame kept the four suspension velocities and `Shifting`
   * are 0.
   */
  lemma FirstFrame(f: Frame, f32: nat -> real)
    ensures var d := WithDerived(f, None, f32);
      && d["NormalizedSuspensionVelocityFrontLeft"] == Num(0.0)
      && d["NormalizedSuspensionVelocityFrontRight"] == Num(0.0)
      && d["NormalizedSuspensionVelocityRearLeft"] == Num(0.0)
      && d["NormalizedSuspensionVelocityRearRight"] == Num(0.0)
      && d["Shifting"] == Int(0)
  {
  }

  /**
   * After a kept frame `p`, `Shifting` is 1 exactly when the gear differs
   * from `p`'s and 0 otherwise, and each suspension velocity is the change
   * of its travel over the signed race-time step.
   */
  lemma NextFrame(f: Frame, p: Frame, f32: nat -> real)
    ensures var d := WithDerived(f, Some(p), f32);
      var dt := TimeStep(Number(f, "CurrentRaceTime", f32), Number(p, "CurrentRaceTime", f32));
      && (d["Shifting"] == Int(1) <==> Lookup(f, "Gear") != Lookup(p, "Gear"))
      && (d["Shifting"] == Int(0) <==> Lookup(f, "Gear") == Lookup(p, "Gear"))
      && d["NormalizedSuspensionVelocityFrontLeft"] == Num((Number(f, "NormalizedSuspensionTravelFrontLeft", f32) - Number(p, "NormalizedSuspensionTravelFrontLeft", f32)) / dt)
      && d["NormalizedSuspensionVelocityFrontRight"] == Num((Number(f, "NormalizedSuspensionTravelFrontRight", f32) - Number(p, "NormalizedSuspensionTravelFrontRight", f32)) / dt)
      && d["NormalizedSuspensionVelocityRearLeft"] == Num((Number(f, "NormalizedSuspensionTravelRearLeft", f32) - Number(p, "NormalizedSuspensionTravelRearLeft", f32)) / dt)
      && d["NormalizedSuspensionVelocityRearRight"] == Num((Number(f, "NormalizedSuspensionTravelRearRight", f32) - Number(p, "NormalizedSuspensionTravelRearRight", f32)) / dt)
  {
  }

  /**
   * The step is signed: a race time earlier than the previous frame's gives
   * a negative step; only an exactly equal time is replaced by 0.016.
   */
  lemma TimeStepSigned(t: real, prevT: real)
    ensures t < prevT ==> TimeStep(t, prevT) < 0.0
    ensures t > prevT ==> TimeStep(t, prevT) > 0.0
    ensures TimeStep(t, prevT) == 0.016 <==> t == prevT || t - prevT == 0.016
  {
  }

  /** Every kept frame carries `RaceID`, from the packet's timestamp and track ordinal. */
  lemma DecodeRaceID(buf: seq<byte>, now: int, prev: Option<Frame>, f32: nat -> real)
    requires DecodePacket(buf, now, prev, f32).Some?
    ensures ReadScalar(buf, 4, U32).Some? && ReadScalar(buf, 4, U32).value.Int?
    ensures ReadScalar(buf, 327, I32).Some? && ReadScalar(buf, 327, I32).value.Int?
    ensures var d := DecodePacket(buf, now, prev, f32).value;
      var ts, track := ReadScalar(buf, 4, U32).value.i, ReadScalar(buf, 327, I32).value.i;
      Lookup(d, "RaceID") == Some(Int(ts / 1000000 * 1000 + track))
  {
    DecodedFrame(buf, now, prev, f32);
    RaceIDReads(buf);
    StampedRaceID(ReadFields(buf).value, now, prev, f32,
                  ReadScalar(buf, 4, U32).value.i, ReadScalar(buf, 327, I32).value.i);
  }

  /** The timestamp and track ordinal of a full-size packet are integers read from its bytes. */
  lemma RaceIDReads(buf: seq<byte>)
    requires |buf| == ExpectedSize
    ensures ReadScalar(buf, 4, U32).Some? && ReadScalar(buf, 4, U32).value.Int?
    ensures ReadScalar(buf, 327, I32).Some? && ReadScalar(buf, 327, I32).value.Int?
    ensures ReadFields(buf).Some?
    ensures Lookup(ReadFields(buf).value, "TimestampMS") == Some(Int(ReadScalar(buf, 4, U32).value.i))
    ensures Lookup(ReadFields(buf).value, "TrackOrdinal") == Some(Int(ReadScalar(buf, 327, I32).value.i))
  {
    PinnedFields(buf);
    IntegerRead(buf, 4, U32);
    IntegerRead(buf, 327, I32);
  }

  /** A kept frame is the stamped read with its derived fields. */
  lemma DecodedFrame(buf: seq<byte>, now: int, prev: Option<Frame>, f32: nat -> real)
    requires DecodePacket(buf, now, prev, f32).Some?
    ensures |buf| == ExpectedSize && ReadFields(buf).Some?
    ensures DecodePacket(buf, now, prev, f32).value == WithDerived(Stamp(ReadFields(buf).value, now), prev, f32)
  {
  }

  /** The derived `RaceID` of a stamped frame comes from its timestamp and track ordinal. */
  lemma StampedRaceID(m: Frame, now: int, prev: Option<Frame>, f32: nat -> real, ts: int, track: int)
    requires Lookup(m, "TimestampMS") == Some(Int(ts)) && Lookup(m, "TrackOrdinal") == Some(Int(track))
    ensures Lookup(WithDerived(Stamp(m, now), prev, f32), "RaceID") == Some(Int(ts / 1000000 * 1000 + track))
  {
    SourcesNotAdded();
    var f := Stamp(m, now);
    assert Lookup(f, "TimestampMS") == Lookup(m, "TimestampMS");
    assert Lookup(f, "TrackOrdinal") == Lookup(m, "TrackOrdinal");
  }

  /**
   * `RaceID` less the track ordinal is a whole number of thousands: the
   * timestamp's count of millions of milliseconds, so it changes only every
   * 1000 seconds of game time.
   */
  lemma RaceIDParts(f: Frame)
    requires IntField(f, "TimestampMS") >= 0
    ensures var thousands := RaceID(f) - IntField(f, "TrackOrdinal");
      thousands % 1000 == 0 && 0 <= thousands <= IntField(f, "TimestampMS") / 1000
  {
    var ts := IntField(f, "TimestampMS");
    var q := ts / 1000000;
    assert q * 1000000 <= ts;
    assert q * 1000 * 1000 == q * 1000000;
  }

  // ---------------------------------------------------------------------
  // Getters

  /** `getPacketTypeName`. */
  function PacketTypeName(id: int): (s: string)
    ensures s != []
  {
    if id == PacketTypeId then "Forza Motorsport" else "Unknown_" + IntString(id)
  }

  /** `getSupportedPacketTypes`. */
  const SupportedPacketTypes: seq<PacketType> := [PacketType(1, "Forza Motorsport")]

  /** `getAcceptedPacketSizes`. */
  const AcceptedPacketSizes: seq<nat> := [ExpectedSize]

  /** The one supported type is the type every frame carries, under its name. */
  lemma SupportedAgree()
    ensures |SupportedPacketTypes| == 1
    ensures SupportedPacketTypes[0].id == PacketTypeId
    ensures SupportedPacketTypes[0].name == PacketTypeName(PacketTypeId)
  {
  }

  /** A name starts with `U` exactly when the id is not Forza's. */
  lemma PacketTypeNameFirst(id: int)
    ensures PacketTypeName(id)[0] == 'U' <==> id != PacketTypeId
  {
  }

  /** Different ids get different names. */
  lemma PacketTypeNameInjective(a: int, b: int)
    requires PacketTypeName(a) == PacketTypeName(b)
    ensures a == b
  {
    PacketTypeNameFirst(a);
    PacketTypeNameFirst(b);
    var u := "Unknown_";
    var sa, sb := PacketTypeName(a), PacketTypeName(b);
    if a != PacketTypeId && b != PacketTypeId {
      assert IntString(a) == sa[|u|..] == sb[|u|..] == IntString(b);
      IntStringInjective(a, b);
    }
  }

  /** Only a packet of the accepted size can decode. */
  lemma AcceptedSizeOnly(buf: seq<byte>, now: int, prev: Option<Frame>, f32: nat -> real)
    requires DecodePacket(buf, now, prev, f32).Some?
    ensures |buf| in AcceptedPacketSizes
  {
  }
}
