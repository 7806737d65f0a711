/**
 * The Assetto Corsa Competizione decoder (src/decoders/assetto-corsa.ts).
 * A packet is one shared-memory page behind a leading byte that names it:
 * physics (1), graphics (2) or static (3). The page is read with a moving
 * cursor. The decoder remembers the last physics frame it returned and
 * derives rates of change from it.
 */
module AccDecoder {
  import opened Wire
  import opened Frames
  import opened Layout
  import opened AccLayouts
  import opened AccDerived

  /** A page frame before its fields are read: its type and `Date.now() / 1000`. */
  function PageStart(packetType: byte, now: int): (f: Frame)
    ensures f.Keys == FrameKeys
  {
    map["packet_type" := Int(packetType), "t" := Num(now as real / 1000.0)]
  }

  // ---------------------------------------------------------------------
  // Decoding

  /** `decodePhysics` on the page: the walk, then the derived fields; `None` if a read throws. */
  function PhysicsPage(page: seq<byte>, now: int, prev: Option<Frame>, f32: nat -> real): Option<Frame>
  {
    var r := ReadFrom(page, 0, Physics, PageStart(PhysicsType, now));
    if r.None? then None else Some(WithDerived(r.value, prev, f32))
  }

  /** `decodeGraphics` on the page: the walk over the graphics layout. */
  function GraphicsPage(page: seq<byte>, now: int): Option<Frame>
  {
    ReadFrom(page, 0, Graphics, PageStart(GraphicsType, now))
  }

  /** `decodeStatic` on the page: the walk over the static layout. */
  function StaticPage(page: seq<byte>, now: int): Option<Frame>
  {
    ReadFrom(page, 0, Static, PageStart(StaticType, now))
  }

  /** `decode`: nothing for an empty buffer or an unknown page byte, else the page decoder's result. */
  function DecodePacket(buffer: seq<byte>, now: int, prev: Option<Frame>, f32: nat -> real): (r: Option<Frame>)
    ensures r.Some? ==> |buffer| > 0 && buffer[0] in {PhysicsType, GraphicsType, StaticType}
  {
    if |buffer| == 0 then None
    else
      var page := buffer[1..];
      if buffer[0] == PhysicsType then PhysicsPage(page, now, prev, f32)
      else if buffer[0] == GraphicsType then GraphicsPage(page, now)
      else if buffer[0] == StaticType then StaticPage(page, now)
      else None
  }

  /** The previous physics frame after `decode(buffer)`. */
  function NextPrevious(buffer: seq<byte>, now: int, prev: Option<Frame>, f32: nat -> real): Option<Frame>
  {
    if |buffer| > 0 && buffer[0] == PhysicsType then
      var r := PhysicsPage(buffer[1..], now, prev, f32);
      if r.Some? then r else prev
    else prev
  }

  /** The stored frame, if any, is a physics frame. */
  predicate PhysicsOrNone(prev: Option<Frame>)
  {
    prev.Some? ==> Lookup(prev.value, "packet_type") == Some(Int(PhysicsType))
  }

  class Decoder {
    /** The last physics frame returned, with its derived fields. */
    var previousPhysicsFrame: Option<Frame>
    /** How a 32-bit float bit pattern reads as a number. */
    const f32: nat -> real

    ghost predicate Valid()
      reads this
    {
      PhysicsOrNone(previousPhysicsFrame)
    }

    constructor(f32: nat -> real)
      ensures Valid() && previousPhysicsFrame == None && this.f32 == f32
    {
      previousPhysicsFrame := None;
      this.f32 := f32;
    }

    method Decode(buffer: seq<byte>, now: int) returns (r: Option<Frame>)
      requires Valid()
      modifies this
      ensures Valid()
      ensures r == DecodePacket(buffer, now, old(previousPhysicsFrame), f32)
      ensures previousPhysicsFrame == NextPrevious(buffer, now, old(previousPhysicsFrame), f32)
    {
      if |buffer| == 0 {
        return None;
      }
      var page := buffer[1..];
      var packetType := buffer[0];
      if packetType == PhysicsType {
        r := DecodePhysics(page, now);
      } else if packetType == GraphicsType {
        r := ReadLayout(page, 0, Graphics, PageStart(GraphicsType, now));
      } else if packetType == StaticType {
        r := ReadLayout(page, 0, Static, PageStart(StaticType, now));
      } else {
        r := None;
      }
    }

    /** `decodePhysics`: the derived fields use the previous frame, which the result then replaces. */
    method DecodePhysics(page: seq<byte>, now: int) returns (r: Option<Frame>)
      requires Valid()
      modifies this
      ensures Valid()
      ensures r == PhysicsPage(page, now, old(previousPhysicsFrame), f32)
      ensures previousPhysicsFrame == if r.Some? then r else old(previousPhysicsFrame)
    {
      var frame := ReadLayout(page, 0, Physics, PageStart(PhysicsType, now));
      if frame.None? {
        return None;
      }
      var full := WithDerived(frame.value, previousPhysicsFrame, f32);
      PhysicsStamp(page, now, previousPhysicsFrame, f32);
      previousPhysicsFrame := Some(full);
      return Some(full);
    }
  }

  // ---------------------------------------------------------------------
  // Lemmas: dispatch

  /** A packet decodes exactly when its page byte is known and the page holds that page's reads. */
  lemma DecodeSome(buffer: seq<byte>, now: int, prev: Option<Frame>, f32: nat -> real)
    ensures DecodePacket(buffer, now, prev, f32).Some? <==>
      |buffer| > 0 &&
      ((buffer[0] == PhysicsType && |buffer| >= 1 + 712)
       || (buffer[0] == GraphicsType && |buffer| >= 1 + 1318)
       || (buffer[0] == StaticType && |buffer| >= 1 + 682))
  {
    if |buffer| > 0 {
      var page := buffer[1..];
      if buffer[0] == PhysicsType {
        PhysicsShape();
        ReadFromSomeIff(page, 0, Physics, PageStart(PhysicsType, now));
      } else if buffer[0] == GraphicsType {
        GraphicsShape();
        ReadFromSomeIff(page, 0, Graphics, PageStart(GraphicsType, now));
      } else if buffer[0] == StaticType {
        StaticShape();
        ReadFromSomeIff(page, 0, Static, PageStart(StaticType, now));
      }
    }
  }

  /** The stamp of a page: no read overwrites it. */
  lemma PageStamp(page: seq<byte>, l: Layout, packetType: byte, now: int)
    requires Keeps(l, FrameKeys) && ReadFrom(page, 0, l, PageStart(packetType, now)).Some?
    ensures var m := ReadFrom(page, 0, l, PageStart(packetType, now)).value;
      Lookup(m, "packet_type") == Some(Int(packetType)) && Lookup(m, "t") == Some(Num(now as real / 1000.0))
  {
    ReadFromKeepsAll(page, 0, l, PageStart(packetType, now), FrameKeys);
  }

  /** A physics frame keeps its stamp through the derived fields. */
  lemma PhysicsStamp(page: seq<byte>, now: int, prev: Option<Frame>, f32: nat -> real)
    requires PhysicsPage(page, now, prev, f32).Some?
    ensures var m := PhysicsPage(page, now, prev, f32).value;
      Lookup(m, "packet_type") == Some(Int(PhysicsType)) && Lookup(m, "t") == Some(Num(now as real / 1000.0))
  {
    PhysicsShape();
    PageStamp(page, Physics, PhysicsType, now);
    DerivedStamp(ReadFrom(page, 0, Physics, PageStart(PhysicsType, now)).value, prev, f32);
  }

  /** Every frame carries the page byte as `packet_type` and the receive time in seconds as `t`. */
  lemma DecodeStamp(buffer: seq<byte>, now: int, prev: Option<Frame>, f32: nat -> real)
    requires DecodePacket(buffer, now, prev, f32).Some?
    ensures var m := DecodePacket(buffer, now, prev, f32).value;
      Lookup(m, "packet_type") == Some(Int(buffer[0])) && Lookup(m, "t") == Some(Num(now as real / 1000.0))
  {
    var page := buffer[1..];
    if buffer[0] == PhysicsType {
      PhysicsStamp(page, now, prev, f32);
    } else if buffer[0] == GraphicsType {
      GraphicsShape();
      PageStamp(page, Graphics, GraphicsType, now);
    } else {
      StaticShape();
      PageStamp(page, Static, StaticType, now);
    }
  }

  /**
   * The stored frame changes only on a physics packet that decodes, and then
   * becomes the frame returned; every other packet leaves it as it was.
   */
  lemma PreviousOnlyOnPhysics(buffer: seq<byte>, now: int, prev: Option<Frame>, f32: nat -> real)
    ensures var r := DecodePacket(buffer, now, prev, f32);
      NextPrevious(buffer, now, prev, f32)
        == if r.Some? && buffer[0] == PhysicsType then r else prev
  {
  }

  /** Decoding keeps the stored frame a physics frame, so the type test on it always passes. */
  lemma PreviousIsPhysics(buffer: seq<byte>, now: int, prev: Option<Frame>, f32: nat -> real)
    requires PhysicsOrNone(prev)
    ensures PhysicsOrNone(NextPrevious(buffer, now, prev, f32))
    ensures FollowsPhysics(prev) <==> prev.Some?
  {
    if |buffer| > 0 && buffer[0] == PhysicsType && PhysicsPage(buffer[1..], now, prev, f32).Some? {
      PhysicsStamp(buffer[1..], now, prev, f32);
    }
  }

  // ---------------------------------------------------------------------
  // Lemmas: page contents

  /**
   * The lap-time strings are read at page offsets 12 and 42: each string
   * field moves the cursor by 30 bytes wherever its terminator lies.
   */
  lemma GraphicsTimes(page: seq<byte>, now: int)
    requires GraphicsPage(page, now).Some?
    ensures var m := GraphicsPage(page, now).value;
      && Lookup(m, "currentTime") == Some(Units(WideString(page, 12, 15)))
      && Lookup(m, "lastTime") == Some(Units(WideString(page, 42, 15)))
  {
    GraphicsCurrentTimeAt(page, 0, PageStart(GraphicsType, now));
    GraphicsLastTimeAt(page, 0, PageStart(GraphicsType, now));
  }

  /** The tyre compound name is read at page offset 176, up to 33 units. */
  lemma GraphicsTyreCompound(page: seq<byte>, now: int)
    requires GraphicsPage(page, now).Some?
    ensures Lookup(GraphicsPage(page, now).value, "tyreCompound") == Some(Units(WideString(page, 176, 33)))
  {
    GraphicsTyreCompoundAt(page, 0, PageStart(GraphicsType, now));
  }

  /** A graphics frame always holds 180 car coordinates, read at offset 254. */
  lemma GraphicsCarCoordinates(page: seq<byte>, now: int)
    requires GraphicsPage(page, now).Some?
    ensures var m := GraphicsPage(page, now).value;
      && "carCoordinates" in m && ReadKind(page, 254, Many(180, F32)) == Some(m["carCoordinates"])
      && m["carCoordinates"].List? && |m["carCoordinates"].items| == 180
  {
    GraphicsCarCoordinatesAt(page, 0, PageStart(GraphicsType, now));
  }

  /** A graphics frame always holds 60 car ids, read at offset 974. */
  lemma GraphicsCarIDs(page: seq<byte>, now: int)
    requires GraphicsPage(page, now).Some?
    ensures var m := GraphicsPage(page, now).value;
      && "carIDs" in m && ReadKind(page, 974, Many(60, I32)) == Some(m["carIDs"])
      && m["carIDs"].List? && |m["carIDs"].items| == 60
  {
    GraphicsCarIDsAt(page, 0, PageStart(GraphicsType, now));
  }

  /** The version strings sit at offsets 0 and 30, the car model and track at 68 and 134. */
  lemma StaticStrings(page: seq<byte>, now: int)
    requires StaticPage(page, now).Some?
    ensures var m := StaticPage(page, now).value;
      && Lookup(m, "smVersion") == Some(Units(WideString(page, 0, 15)))
      && Lookup(m, "acVersion") == Some(Units(WideString(page, 30, 15)))
      && Lookup(m, "carModel") == Some(Units(WideString(page, 68, 33)))
      && Lookup(m, "track") == Some(Units(WideString(page, 134, 33)))
  {
    StaticSmVersionAt(page, 0, PageStart(StaticType, now));
    StaticAcVersionAt(page, 0, PageStart(StaticType, now));
    StaticCarModelAt(page, 0, PageStart(StaticType, now));
    StaticTrackAt(page, 0, PageStart(StaticType, now));
  }

  /** `getPacketTypeName`. */
  function PacketTypeName(id: int): (s: string)
    ensures s != []
  {
    if id == 1 then "Physics"
    else if id == 2 then "Graphics"
    else if id == 3 then "Static"
    else "Unknown (" + IntString(id) + ")"
  }

  /** `getSupportedPacketTypes`. */
  const SupportedPacketTypes: seq<PacketType> :=
    [PacketType(1, "Physics"), PacketType(2, "Graphics"), PacketType(3, "Static")]

  /** `getAcceptedPacketSizes`: one 4093-byte page plus the type byte, for each page. */
  const AcceptedPacketSizes: seq<nat> := [4094, 4094, 4094]

  /** The supported list is the three page bytes, each with its name. */
  lemma SupportedAgree()
    ensures |SupportedPacketTypes| == 3
    ensures forall i | 0 <= i < 3 ::
      SupportedPacketTypes[i].id == i + 1 && SupportedPacketTypes[i].name == PacketTypeName(i + 1)
  {
  }

  /** A name starts with `U` exactly when the id is not one of the three pages. */
  lemma PacketTypeNameFirst(id: int)
    ensures var s := PacketTypeName(id);
      s[0] == 'U' <==> !(1 <= id <= 3)
  {
  }

  /** Different ids get different names. */
  lemma PacketTypeNameInjective(a: int, b: int)
    requires PacketTypeName(a) == PacketTypeName(b)
    ensures a == b
  {
    PacketTypeNameFirst(a);
    PacketTypeNameFirst(b);
    if !(1 <= a <= 3) {
      var u := "Unknown (";
      var sa, sb := PacketTypeName(a), PacketTypeName(b);
      assert IntString(a) == sa[|u|..|sa| - 1] == sb[|u|..|sb| - 1] == IntString(b);
      IntStringInjective(a, b);
    }
  }

  /** A packet of an accepted size whose byte names a supported page always decodes. */
  lemma AcceptedSizesDecode(buffer: seq<byte>, now: int, prev: Option<Frame>, f32: nat -> real, i: int)
    requires 0 <= i < |AcceptedPacketSizes| && |buffer| == AcceptedPacketSizes[i]
    requires buffer[0] == SupportedPacketTypes[i].id
    ensures DecodePacket(buffer, now, prev, f32).Some?
  {
    DecodeSome(buffer, now, prev, f32);
  }
}
