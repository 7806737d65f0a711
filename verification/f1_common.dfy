/**
 * What the F1 24 and F1 25 decoders share: the 29-byte packet header, the
 * header part of every frame, and the three shapes a packet body takes —
 * the player's record in an array of per-car records, the same after a
 * one-byte count, or a single body right after the header.
 */
module F1Common {
  import opened Wire
  import opened Frames
  import opened Layout

  const HeaderSize: nat := 29

  /** The packet header, field by field. `sessionTime` is a raw float pattern. */
  datatype Header = Header(
    packetFormat: nat, gameYear: nat, gameMajorVersion: nat, gameMinorVersion: nat,
    packetVersion: nat, packetId: nat, sessionUID: nat, sessionTime: nat,
    frameIdentifier: nat, overallFrameIdentifier: nat,
    playerCarIndex: nat, secondaryPlayerCarIndex: nat)

  /** `readPacketHeader`: fixed little-endian offsets within the first 29 bytes. */
  function ReadHeader(buf: seq<byte>): (h: Option<Header>)
    ensures h.Some? <==> |buf| >= HeaderSize
  {
    if |buf| < HeaderSize then None
    else
      Some(Header(
        LittleEndian(buf[0..2]), buf[2], buf[3], buf[4], buf[5], buf[6],
        LittleEndian(buf[7..15]), LittleEndian(buf[15..19]),
        LittleEndian(buf[19..23]), LittleEndian(buf[23..27]),
        buf[27], buf[28]))
  }

  /** Every header field fits the width it is read with. */
  predicate HeaderInRange(h: Header)
  {
    && h.packetFormat < Pow256(2) && h.gameYear < 256 && h.gameMajorVersion < 256
    && h.gameMinorVersion < 256 && h.packetVersion < 256 && h.packetId < 256
    && h.sessionUID < Pow256(8) && h.sessionTime < Pow256(4)
    && h.frameIdentifier < Pow256(4) && h.overallFrameIdentifier < Pow256(4)
    && h.playerCarIndex < 256 && h.secondaryPlayerCarIndex < 256
  }

  /** The 29 header bytes a game writes for `h`. */
  function HeaderBytes(h: Header): (s: seq<byte>)
    requires HeaderInRange(h)
    ensures |s| == HeaderSize
  {
    LittleEndianBytes(h.packetFormat, 2)
      + [h.gameYear, h.gameMajorVersion, h.gameMinorVersion, h.packetVersion, h.packetId]
      + LittleEndianBytes(h.sessionUID, 8) + LittleEndianBytes(h.sessionTime, 4)
      + LittleEndianBytes(h.frameIdentifier, 4) + LittleEndianBytes(h.overallFrameIdentifier, 4)
      + [h.playerCarIndex, h.secondaryPlayerCarIndex]
  }

  /** The reader recovers every field of a written header, whatever follows it. */
  lemma ReadHeaderRoundTrip(h: Header, rest: seq<byte>)
    requires HeaderInRange(h)
    ensures ReadHeader(HeaderBytes(h) + rest) == Some(h)
  {
    var b := HeaderBytes(h) + rest;
    assert b[0..2] == LittleEndianBytes(h.packetFormat, 2);
    assert b[7..15] == LittleEndianBytes(h.sessionUID, 8);
    assert b[15..19] == LittleEndianBytes(h.sessionTime, 4);
    assert b[19..23] == LittleEndianBytes(h.frameIdentifier, 4);
    assert b[23..27] == LittleEndianBytes(h.overallFrameIdentifier, 4);
    LittleEndianRoundTrip(h.packetFormat, 2);
    LittleEndianRoundTrip(h.sessionUID, 8);
    LittleEndianRoundTrip(h.sessionTime, 4);
    LittleEndianRoundTrip(h.frameIdentifier, 4);
    LittleEndianRoundTrip(h.overallFrameIdentifier, 4);
  }

  /** The header is read from the first 29 bytes and nothing else. */
  lemma HeaderWindow(b1: seq<byte>, b2: seq<byte>)
    requires |b1| >= HeaderSize && |b2| >= HeaderSize && b1[..HeaderSize] == b2[..HeaderSize]
    ensures ReadHeader(b1) == ReadHeader(b2)
  {
    var w := b1[..HeaderSize];
    assert b1[0..2] == w[0..2] == b2[0..2];
    assert b1[7..15] == w[7..15] == b2[7..15];
    assert b1[15..19] == w[15..19] == b2[15..19];
    assert b1[19..23] == w[19..23] == b2[19..23];
    assert b1[23..27] == w[23..27] == b2[23..27];
    assert forall i | 0 <= i < HeaderSize :: b1[i] == w[i] == b2[i];
  }

  /** The keys `headerToFrame` sets, and `packet_type`. */
  const HeaderKeys: set<string> := {
    "t", "packet_type", "packetFormat", "gameYear", "gameMajorVersion", "gameMinorVersion",
    "packetVersion", "packetId", "sessionUID", "sessionTime", "frameIdentifier",
    "overallFrameIdentifier", "playerCarIndex", "secondaryPlayerCarIndex"}

  /** The lap positions matrix is not a header field. */
  lemma PositionDataNotHeader()
    ensures "positionData" !in HeaderKeys
  {
  }

  /** `headerToFrame`: the header fields, the 64-bit session id in decimal, and the clock as `t`. */
  function HeaderFrame(h: Header, now: int): Frame
  {
    map[
      "t" := Int(now),
      "packetFormat" := Int(h.packetFormat),
      "gameYear" := Int(h.gameYear),
      "gameMajorVersion" := Int(h.gameMajorVersion),
      "gameMinorVersion" := Int(h.gameMinorVersion),
      "packetVersion" := Int(h.packetVersion),
      "packetId" := Int(h.packetId),
      "sessionUID" := Str(Decimal(h.sessionUID)),
      "sessionTime" := Bits32(h.sessionTime),
      "frameIdentifier" := Int(h.frameIdentifier),
      "overallFrameIdentifier" := Int(h.overallFrameIdentifier),
      "playerCarIndex" := Int(h.playerCarIndex),
      "secondaryPlayerCarIndex" := Int(h.secondaryPlayerCarIndex)]
  }

  /** The header part of a frame followed by `packet_type` (also `createBasicFrame`). */
  function BaseFrame(h: Header, now: int, pt: nat): Frame
  {
    HeaderFrame(h, now)["packet_type" := Int(pt)]
  }

  /** The header part of a frame carries exactly the header keys. */
  lemma BaseFrameKeys(h: Header, now: int, pt: nat)
    ensures BaseFrame(h, now, pt).Keys == HeaderKeys
  {
  }

  /**
   * It carries `packet_type`, the clock as `t`, the header fields, and the
   * session id as a decimal string that reads back as the id.
   */
  lemma BaseFrameValues(h: Header, now: int, pt: nat)
    ensures var f := BaseFrame(h, now, pt);
      && f["packet_type"] == Int(pt) && f["t"] == Int(now)
      && f["packetId"] == Int(h.packetId) && f["playerCarIndex"] == Int(h.playerCarIndex)
      && f["sessionUID"].Str? && DecimalOf(f["sessionUID"].s, h.sessionUID)
  {
    DecimalRoundTrip(h.sessionUID);
  }

  /** ... and every other header key with the value `headerToFrame` gave it. */
  lemma BaseFrameHeader(h: Header, now: int, pt: nat)
    ensures forall k | k in HeaderFrame(h, now) :: k in BaseFrame(h, now, pt) && BaseFrame(h, now, pt)[k] == HeaderFrame(h, now)[k]
  {
  }

  /** The shape of a packet body. */
  datatype Body =
    | PerCar(size: nat, layout: Layout)                  // record `playerCarIndex` of `size`-byte records
    | Counted(count: string, size: nat, layout: Layout)  // the same after a count byte
    | Whole(size: nat, layout: Layout)                   // one body of `size` bytes

  /** Where the walk over the body layout starts. */
  function Start(body: Body, idx: nat): (p: nat)
    ensures p >= HeaderSize
  {
    match body
    case PerCar(size, _) => HeaderSize + idx * size
    case Counted(_, size, _) => HeaderSize + 1 + idx * size
    case Whole(_, _) => HeaderSize
  }

  /** The frame before the body walk: header, `packet_type`, and the count byte if any. */
  function Initial(buf: seq<byte>, h: Header, pt: nat, body: Body, now: int): Frame
  {
    if body.Counted? && |buf| > HeaderSize then BaseFrame(h, now, pt)[body.count := Int(buf[HeaderSize])]
    else BaseFrame(h, now, pt)
  }

  /**
   * A `decode*Packet` function: the size check against the checked record
   * size, then the walk over the layout. `None` is either the early `null` or
   * a read that throws and is caught by `decode`.
   */
  function DecodeBody(buf: seq<byte>, h: Header, pt: nat, body: Body, now: int): Option<Frame>
  {
    if body.Counted? && HeaderSize + 1 > |buf| then None
    else
      var start := Start(body, h.playerCarIndex);
      if start + body.size > |buf| then None
      else ReadFrom(buf, start, body.layout, Initial(buf, h, pt, body, now))
  }

  /** The count-byte check is subsumed by the record check. */
  lemma DecodeBodyForm(buf: seq<byte>, h: Header, pt: nat, body: Body, now: int)
    ensures DecodeBody(buf, h, pt, body, now)
      == if Start(body, h.playerCarIndex) + body.size > |buf| then None
         else ReadFrom(buf, Start(body, h.playerCarIndex), body.layout, Initial(buf, h, pt, body, now))
  {
    if body.Counted? && HeaderSize + 1 > |buf| {
      var start := HeaderSize + 1 + h.playerCarIndex * body.size;
      assert Start(body, h.playerCarIndex) == start > |buf|;
    }
  }

  /** Reading no further than the check: the body decodes exactly when the check passes. */
  lemma DecodeBodyWithin(buf: seq<byte>, h: Header, pt: nat, body: Body, now: int)
    requires Width(body.layout) <= body.size
    ensures DecodeBody(buf, h, pt, body, now).Some? <==> Start(body, h.playerCarIndex) + body.size <= |buf|
  {
    DecodeBodyForm(buf, h, pt, body, now);
    var start := Start(body, h.playerCarIndex);
    if start + body.size <= |buf| {
      ReadFromSome(buf, start, body.layout, Initial(buf, h, pt, body, now));
    }
  }

  /**
   * Reading past the check: the body decodes exactly when the whole read
   * fits, so a buffer that passes the check but is shorter than the read
   * yields `None` through the caught read error.
   */
  lemma DecodeBodyOverread(buf: seq<byte>, h: Header, pt: nat, body: Body, now: int)
    requires Width(body.layout) > body.size && EndsStrict(body.layout)
    ensures DecodeBody(buf, h, pt, body, now).Some? <==> Start(body, h.playerCarIndex) + Width(body.layout) <= |buf|
  {
    DecodeBodyForm(buf, h, pt, body, now);
    ReadFromSomeIff(buf, Start(body, h.playerCarIndex), body.layout, Initial(buf, h, pt, body, now));
  }

  /** A decoded body keeps every header key, with the header's value, and `packet_type`. */
  lemma DecodeBodyHeader(buf: seq<byte>, h: Header, pt: nat, body: Body, now: int)
    requires Keeps(body.layout, HeaderKeys) && (body.Counted? ==> body.count !in HeaderKeys)
    requires DecodeBody(buf, h, pt, body, now).Some?
    ensures var f := DecodeBody(buf, h, pt, body, now).value;
      && (forall k | k in HeaderFrame(h, now) :: k in f && f[k] == HeaderFrame(h, now)[k])
      && "packet_type" in f && f["packet_type"] == Int(pt)
  {
    var start := Start(body, h.playerCarIndex);
    var init := Initial(buf, h, pt, body, now);
    DecodeBodyForm(buf, h, pt, body, now);
    InitialHeader(buf, h, pt, body, now);
    ReadFromKeepsAll(buf, start, body.layout, init, HeaderKeys);
  }

  /** The frame a body walk starts from carries the header part unchanged. */
  lemma InitialHeader(buf: seq<byte>, h: Header, pt: nat, body: Body, now: int)
    requires body.Counted? ==> body.count !in HeaderKeys
    ensures var init := Initial(buf, h, pt, body, now);
      && (forall k | k in HeaderFrame(h, now) :: k in HeaderKeys && k in init && init[k] == HeaderFrame(h, now)[k])
      && "packet_type" in HeaderKeys && "packet_type" in init && init["packet_type"] == Int(pt)
  {
    var base := BaseFrame(h, now, pt);
    BaseFrameKeys(h, now, pt);
    PacketTypeNotInHeaderFrame(h, now);
    forall k | k in HeaderFrame(h, now)
      ensures k in HeaderKeys && k in Initial(buf, h, pt, body, now) && Initial(buf, h, pt, body, now)[k] == HeaderFrame(h, now)[k]
    {
      assert k in base && base[k] == HeaderFrame(h, now)[k];
    }
  }

  lemma PacketTypeNotInHeaderFrame(h: Header, now: int)
    ensures "packet_type" !in HeaderFrame(h, now) && "packet_type" in HeaderKeys
  {
  }

  /** A decoded body holds the header keys, the count if any, and the layout's names: nothing else. */
  lemma DecodeBodyKeys(buf: seq<byte>, h: Header, pt: nat, body: Body, now: int)
    requires DecodeBody(buf, h, pt, body, now).Some?
    ensures DecodeBody(buf, h, pt, body, now).value.Keys
      == HeaderKeys + (if body.Counted? then {body.count} else {}) + Names(body.layout)
  {
    DecodeBodyForm(buf, h, pt, body, now);
    ReadFromKeys(buf, Start(body, h.playerCarIndex), body.layout, Initial(buf, h, pt, body, now));
  }

  /**
   * Player isolation: two buffers with the same header (and count byte) that
   * agree on the bytes of the player's record decode to the same frame; no
   * other car's record is looked at.
   */
  lemma DecodeBodyWindow(b1: seq<byte>, b2: seq<byte>, h: Header, pt: nat, body: Body, now: int)
    requires Width(body.layout) <= body.size
    requires body.Counted? ==> |b1| > HeaderSize && |b2| > HeaderSize && b1[HeaderSize] == b2[HeaderSize]
    requires SameBytes(b1, Start(body, h.playerCarIndex), b2, Start(body, h.playerCarIndex), body.size)
    ensures DecodeBody(b1, h, pt, body, now) == DecodeBody(b2, h, pt, body, now)
  {
    var start := Start(body, h.playerCarIndex);
    DecodeBodyForm(b1, h, pt, body, now);
    DecodeBodyForm(b2, h, pt, body, now);
    SameBytesSub(b1, start, b2, start, body.size, 0, Width(body.layout));
    ReadFromWindow(b1, start, b2, start, body.layout, Initial(b1, h, pt, body, now));
  }

  /** The cursor walk of a `decode*Packet` function. */
  method DecodeBodyWalk(buf: seq<byte>, h: Header, pt: nat, body: Body, now: int) returns (r: Option<Frame>)
    ensures r == DecodeBody(buf, h, pt, body, now)
  {
    var frame := BaseFrame(h, now, pt);
    var offset: nat;
    match body {
      case PerCar(size, _) =>
        offset := HeaderSize + h.playerCarIndex * size;
        if offset + size > |buf| {
          return None;
        }
      case Counted(count, size, _) =>
        if HeaderSize + 1 > |buf| {
          return None;
        }
        frame := frame[count := Int(buf[HeaderSize])];
        offset := HeaderSize + 1 + h.playerCarIndex * size;
        if offset + size > |buf| {
          return None;
        }
      case Whole(size, _) =>
        offset := HeaderSize;
        if offset + size > |buf| {
          return None;
        }
    }
    r := ReadLayout(buf, offset, body.layout, frame);
  }

  // ---------------------------------------------------------------------
  // Dispatch: `decode` over a table of body decoders indexed by packet id

  /**
   * `decode`: `None` below the 29-byte header; a packet id with an entry in
   * the table goes to that body decoder, any other id gives the header part
   * of a frame with the raw id as `packet_type` (`createBasicFrame`).
   */
  function DecodePacket(buf: seq<byte>, bodies: seq<Body>, now: int): (r: Option<Frame>)
    ensures |buf| < HeaderSize ==> r.None?
  {
    if |buf| < HeaderSize then None
    else
      var h := ReadHeader(buf).value;
      if h.packetId < |bodies| then DecodeBody(buf, h, h.packetId, bodies[h.packetId], now)
      else Some(BaseFrame(h, now, h.packetId))
  }

  /** `decode` as a statement sequence: the gate, the header, the switch and the cursor walk. */
  method DecodeWalk(buf: seq<byte>, bodies: seq<Body>, now: int) returns (r: Option<Frame>)
    ensures r == DecodePacket(buf, bodies, now)
  {
    if |buf| < HeaderSize {
      return None;
    }
    var h := ReadHeader(buf).value;
    if h.packetId < |bodies| {
      r := DecodeBodyWalk(buf, h, h.packetId, bodies[h.packetId], now);
    } else {
      r := Some(BaseFrame(h, now, h.packetId));
    }
  }

  /**
   * What a body decoder reads: `w` bytes from its start, ending in a read that
   * throws past the end wherever that is more than it checks, and none of the
   * header keys.
   */
  predicate Reads(b: Body, w: nat)
  {
    && Width(b.layout) == w
    && (w <= b.size || EndsStrict(b.layout))
    && Keeps(b.layout, HeaderKeys)
    && (b.Counted? ==> b.count !in HeaderKeys)
  }

  /** Every body decoder of the table reads the width listed for it. */
  predicate TableReads(bodies: seq<Body>, widths: seq<nat>)
  {
    |bodies| == |widths| && forall i | 0 <= i < |bodies| :: Reads(bodies[i], widths[i])
  }

  lemma TableReadsAppend(b1: seq<Body>, w1: seq<nat>, b2: seq<Body>, w2: seq<nat>)
    requires TableReads(b1, w1) && TableReads(b2, w2)
    ensures TableReads(b1 + b2, w1 + w2)
  {
    forall i | 0 <= i < |b1 + b2| ensures Reads((b1 + b2)[i], (w1 + w2)[i]) {
      if i >= |b1| {
        assert (b1 + b2)[i] == b2[i - |b1|] && (w1 + w2)[i] == w2[i - |b1|];
      }
    }
  }

  /** A body and its reads fit in `size` bytes for the player index `idx`. */
  predicate Fits(b: Body, w: nat, size: nat, idx: nat)
  {
    Start(b, idx) + b.size <= size && Start(b, idx) + w <= size
  }

  /**
   * Every table entry fits in its listed size for the player indices up to
   * its entry in `last`, and, unless that entry is 255 (every index a byte can
   * hold), not for the next index.
   */
  predicate TableFits(bodies: seq<Body>, widths: seq<nat>, sizes: seq<nat>, last: seq<nat>)
  {
    && |bodies| == |widths| == |sizes| == |last|
    && forall i | 0 <= i < |bodies| ::
         Fits(bodies[i], widths[i], sizes[i], last[i]) && (last[i] < 255 ==> !Fits(bodies[i], widths[i], sizes[i], last[i] + 1))
  }

  /** A smaller player index starts no later, so it fits too. */
  lemma FitsBelow(b: Body, w: nat, size: nat, i: nat, j: nat)
    requires i <= j && Fits(b, w, size, j)
    ensures Fits(b, w, size, i)
  {
    assert i * b.size <= j * b.size by {
      assert (j - i) * b.size >= 0;
    }
  }

  lemma TableFitsAppend(b1: seq<Body>, w1: seq<nat>, s1: seq<nat>, l1: seq<nat>, b2: seq<Body>, w2: seq<nat>, s2: seq<nat>, l2: seq<nat>)
    requires TableFits(b1, w1, s1, l1) && TableFits(b2, w2, s2, l2)
    ensures TableFits(b1 + b2, w1 + w2, s1 + s2, l1 + l2)
  {
    forall i | 0 <= i < |b1 + b2|
      ensures Fits((b1 + b2)[i], (w1 + w2)[i], (s1 + s2)[i], (l1 + l2)[i])
      ensures (l1 + l2)[i] < 255 ==> !Fits((b1 + b2)[i], (w1 + w2)[i], (s1 + s2)[i], (l1 + l2)[i] + 1)
    {
      if i >= |b1| {
        assert (b1 + b2)[i] == b2[i - |b1|] && (w1 + w2)[i] == w2[i - |b1|];
        assert (s1 + s2)[i] == s2[i - |b1|] && (l1 + l2)[i] == l2[i - |b1|];
      }
    }
  }

  /**
   * A packet with a table entry decodes exactly when the body decoder's size
   * check passes and every byte it reads lies in the buffer.
   */
  lemma PacketSome(buf: seq<byte>, bodies: seq<Body>, widths: seq<nat>, now: int)
    requires TableReads(bodies, widths)
    requires |buf| >= HeaderSize && buf[6] < |bodies|
    ensures var b := bodies[buf[6]];
      var start := Start(b, buf[27]);
      DecodePacket(buf, bodies, now).Some? <==> start + b.size <= |buf| && start + widths[buf[6]] <= |buf|
  {
    var h := ReadHeader(buf).value;
    var b := bodies[h.packetId];
    assert Reads(b, widths[h.packetId]);
    if Width(b.layout) <= b.size {
      DecodeBodyWithin(buf, h, h.packetId, b, now);
    } else {
      DecodeBodyOverread(buf, h, h.packetId, b, now);
    }
  }

  /** A packet of its listed size decodes exactly for the player indices up to the table's `last` entry. */
  lemma PacketAtSize(buf: seq<byte>, bodies: seq<Body>, widths: seq<nat>, sizes: seq<nat>, last: seq<nat>, now: int)
    requires TableReads(bodies, widths) && TableFits(bodies, widths, sizes, last)
    requires |buf| >= HeaderSize && buf[6] < |bodies| && |buf| == sizes[buf[6]]
    ensures DecodePacket(buf, bodies, now).Some? <==> buf[27] <= last[buf[6]]
  {
    var id, idx := buf[6], buf[27];
    PacketSome(buf, bodies, widths, now);
    if idx <= last[id] {
      FitsBelow(bodies[id], widths[id], sizes[id], idx, last[id]);
    } else if Fits(bodies[id], widths[id], sizes[id], idx) {
      FitsBelow(bodies[id], widths[id], sizes[id], last[id] + 1, idx);
    }
  }

  /**
   * Every frame carries the header fields as `headerToFrame` renders them,
   * and `packet_type` is the packet id, in the table or not.
   */
  lemma PacketHeader(buf: seq<byte>, bodies: seq<Body>, widths: seq<nat>, now: int)
    requires TableReads(bodies, widths)
    requires DecodePacket(buf, bodies, now).Some?
    ensures var f := DecodePacket(buf, bodies, now).value;
      var h := ReadHeader(buf).value;
      && (forall k | k in HeaderFrame(h, now) :: k in f && f[k] == HeaderFrame(h, now)[k])
      && "packet_type" in f && f["packet_type"] == Int(buf[6])
  {
    var h := ReadHeader(buf).value;
    if h.packetId < |bodies| {
      assert Reads(bodies[h.packetId], widths[h.packetId]);
      DecodeBodyHeader(buf, h, h.packetId, bodies[h.packetId], now);
    }
  }

  /**
   * The keys of a frame: the header keys, the count of a counted body, and
   * the body's field names; a packet id outside the table gives the header
   * keys only.
   */
  lemma PacketKeys(buf: seq<byte>, bodies: seq<Body>, now: int)
    requires DecodePacket(buf, bodies, now).Some?
    ensures var id := buf[6];
      DecodePacket(buf, bodies, now).value.Keys
        == if id < |bodies| then
             HeaderKeys + (if bodies[id].Counted? then {bodies[id].count} else {}) + Names(bodies[id].layout)
           else HeaderKeys
  {
    var h := ReadHeader(buf).value;
    if h.packetId < |bodies| {
      DecodeBodyKeys(buf, h, h.packetId, bodies[h.packetId], now);
    } else {
      BaseFrameKeys(h, now, h.packetId);
    }
  }

  /**
   * Player isolation: where a body decoder reads no more than it checks, two
   * packets with the same header (and count byte) whose player records agree
   * decode to the same frame, whatever the other records hold.
   */
  lemma PacketWindow(b1: seq<byte>, b2: seq<byte>, bodies: seq<Body>, widths: seq<nat>, now: int)
    requires TableReads(bodies, widths)
    requires |b1| >= HeaderSize && |b2| >= HeaderSize && b1[..HeaderSize] == b2[..HeaderSize]
    requires b1[6] < |bodies| && widths[b1[6]] <= bodies[b1[6]].size
    requires bodies[b1[6]].Counted? ==> |b1| > HeaderSize && |b2| > HeaderSize && b1[HeaderSize] == b2[HeaderSize]
    requires var b := bodies[b1[6]]; SameBytes(b1, Start(b, b1[27]), b2, Start(b, b1[27]), b.size)
    ensures DecodePacket(b1, bodies, now) == DecodePacket(b2, bodies, now)
  {
    HeaderWindow(b1, b2);
    var h := ReadHeader(b1).value;
    assert Reads(bodies[h.packetId], widths[h.packetId]);
    DecodeBodyWindow(b1, b2, h, h.packetId, bodies[h.packetId], now);
  }

  /**
   * `getPacketTypeName` of both F1 decoders: the listed name of the ids 0 to
   * `|names| - 1`, `Unknown_<id>` for any other number.
   */
  function TypeName(names: seq<string>, id: int): string
  {
    if 0 <= id < |names| then names[id] else "Unknown_" + IntString(id)
  }

  /** The listed names are pairwise distinct and none starts with `U`, as an unknown id's name does. */
  predicate NameTable(names: seq<string>)
  {
    && (forall i, j | 0 <= i < j < |names| :: names[i] != names[j])
    && (forall i | 0 <= i < |names| :: names[i] != [] && names[i][0] != 'U')
  }

  /** A name starts with `U` exactly when the id is not listed. */
  lemma TypeNameFirst(names: seq<string>, id: int)
    requires NameTable(names)
    ensures var s := TypeName(names, id);
      s != [] && (s[0] == 'U' <==> !(0 <= id < |names|))
  {
  }

  /** Different packet types get different names, listed or `Unknown_<id>`. */
  lemma TypeNameInjective(names: seq<string>, a: int, b: int)
    requires NameTable(names)
    requires TypeName(names, a) == TypeName(names, b)
    ensures a == b
  {
    TypeNameFirst(names, a);
    TypeNameFirst(names, b);
    if 0 <= a < |names| {
      assert !(a < b) && !(b < a);
    } else {
      var u := "Unknown_";
      var sa, sb := TypeName(names, a), TypeName(names, b);
      assert IntString(a) == sa[|u|..] == sb[|u|..] == IntString(b);
      IntStringInjective(a, b);
    }
  }
}
