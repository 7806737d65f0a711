/**
 * The F1 25 decoder (`F1_25_Decoder`): the F1 24 dispatch with sixteen body
 * decoders, a new lap positions packet, and two bodies that end in
 * early-exit loops (session history and lap positions) instead of
 * fixed-count reads. As in F1 24 a caught read error gives `null`, so
 * `None` covers the early returns and the caught errors.
 */
module F1Decoder25 {
  import opened Wire
  import opened Frames
  import opened Layout
  import opened F1Common
  import opened F1Layouts25
  import opened BoundedReads

  /** The body decoders of packet ids 0 to 3, 4 to 7, 8 to 11 and 12 to 15. */
  const BodiesA: seq<Body> := [
    PerCar(60, Motion),
    Whole(644, Session),
    PerCar(53, LapData),
    Whole(7, Event)]

  const BodiesB: seq<Body> := [
    Counted("numActiveCars", 58, Participants),
    PerCar(49, CarSetups),
    PerCar(60, CarTelemetry),
    PerCar(47, CarStatus)]

  const BodiesC: seq<Body> := [
    Counted("numCars", 46, FinalClassification),
    Counted("numPlayers", 42, LobbyInfo),
    PerCar(46, CarDamage),
    Whole(8, SessionHistoryHead)]

  const BodiesD: seq<Body> := [
    Whole(1, TyreSets),
    PerCar(156, MotionEx),
    Whole(24, TimeTrial),
    Whole(2, LapPositionsHead)]

  /**
   * The fixed part of each body decoder, in `F1_25_PacketType` order; for
   * session history and lap positions the part before their loops.
   */
  const Bodies: seq<Body> := BodiesA + BodiesB + BodiesC + BodiesD

  /** The bytes each fixed part reads from its start, in packet id order. */
  const ReadWidths: seq<nat> := [60, 62, 55, 4, 55, 49, 60, 55, 46, 38, 46, 7, 1, 188, 24, 2]

  /** `getAcceptedPacketSizes`, in packet id order. */
  const AcceptedSizes: seq<nat> := [1349, 753, 1285, 45, 1274, 1133, 1352, 1239, 1020, 1306, 953, 1460, 231, 237, 101, 573]

  /**
   * The last player index whose packet of the accepted size decodes, per
   * packet id; 255 where the body does not depend on the index.
   */
  const LastPlayerIndex: seq<nat> := [21, 255, 22, 255, 20, 21, 21, 24, 20, 29, 19, 255, 255, 0, 255, 255]

  /** The session history loops after the seven head bytes, in the order they run. */
  const HistoryArrays: seq<Bounded> := [
    Bounded("lapTimeInMS", 100, 4),
    Bounded("sector1TimeInMS", 100, 2),
    Bounded("sector2TimeInMS", 100, 2),
    Bounded("sector3TimeInMS", 100, 2),
    Bounded("lapValidBitFlags", 100, 1),
    Bounded("endLap", 8, 1),
    Bounded("tyreActualCompound", 8, 1),
    Bounded("tyreVisualCompound", 8, 1)]

  /** Where the session history loops start: after the header and the seven head bytes. */
  const HistoryStart: nat := HeaderSize + 7

  /** Where the lap positions matrix starts: after the header, `numLaps` and `lapStart`. */
  const PositionsStart: nat := HeaderSize + 2

  /** The lap positions matrix: at most 50 laps of at most 22 cars. */
  const MaxLaps: nat := 50
  const MaxCars: nat := 22

  lemma MotionReads()
    ensures Reads(PerCar(60, Motion), 60)
  {
    MotionShape();
  }

  lemma SessionReads()
    ensures Reads(Whole(644, Session), 62)
  {
    SessionShape();
  }

  lemma LapDataReads()
    ensures Reads(PerCar(53, LapData), 55)
  {
    LapDataShape();
  }

  lemma EventReads()
    ensures Reads(Whole(7, Event), 4)
  {
    EventShape();
  }

  lemma ParticipantsReads()
    ensures Reads(Counted("numActiveCars", 58, Participants), 55)
  {
    ParticipantsShape();
  }

  lemma CarSetupsReads()
    ensures Reads(PerCar(49, CarSetups), 49)
  {
    CarSetupsShape();
  }

  lemma CarTelemetryReads()
    ensures Reads(PerCar(60, CarTelemetry), 60)
  {
    CarTelemetryShape();
  }

  lemma CarStatusReads()
    ensures Reads(PerCar(47, CarStatus), 55)
  {
    CarStatusShape();
  }

  lemma FinalClassificationReads()
    ensures Reads(Counted("numCars", 46, FinalClassification), 46)
  {
    FinalClassificationShape();
  }

  lemma LobbyInfoReads()
    ensures Reads(Counted("numPlayers", 42, LobbyInfo), 38)
  {
    LobbyInfoShape();
  }

  lemma CarDamageReads()
    ensures Reads(PerCar(46, CarDamage), 46)
  {
    CarDamageShape();
  }

  lemma SessionHistoryHeadReads()
    ensures Reads(Whole(8, SessionHistoryHead), 7)
  {
    SessionHistoryHeadShape();
  }

  lemma TyreSetsReads()
    ensures Reads(Whole(1, TyreSets), 1)
  {
    TyreSetsShape();
  }

  lemma MotionExReads()
    ensures Reads(PerCar(156, MotionEx), 188)
  {
    MotionExShape();
  }

  lemma TimeTrialReads()
    ensures Reads(Whole(24, TimeTrial), 24)
  {
    TimeTrialShape();
  }

  lemma LapPositionsHeadReads()
    ensures Reads(Whole(2, LapPositionsHead), 2)
  {
    LapPositionsHeadShape();
  }

  lemma TableAFits()
    ensures TableFits(BodiesA, ReadWidths[..4], AcceptedSizes[..4], LastPlayerIndex[..4])
  {
  }

  lemma TableA()
    ensures |BodiesA| == 4
    ensures TableReads(BodiesA, ReadWidths[..4]) && TableFits(BodiesA, ReadWidths[..4], AcceptedSizes[..4], LastPlayerIndex[..4])
  {
    MotionReads();
    SessionReads();
    LapDataReads();
    EventReads();
    TableAFits();
  }

  lemma TableBFits()
    ensures TableFits(BodiesB, ReadWidths[4..8], AcceptedSizes[4..8], LastPlayerIndex[4..8])
  {
  }

  lemma TableB()
    ensures |BodiesB| == 4
    ensures TableReads(BodiesB, ReadWidths[4..8]) && TableFits(BodiesB, ReadWidths[4..8], AcceptedSizes[4..8], LastPlayerIndex[4..8])
  {
    ParticipantsReads();
    CarSetupsReads();
    CarTelemetryReads();
    CarStatusReads();
    TableBFits();
  }

  lemma TableCFits()
    ensures TableFits(BodiesC, ReadWidths[8..12], AcceptedSizes[8..12], LastPlayerIndex[8..12])
  {
  }

  lemma TableC()
    ensures |BodiesC| == 4
    ensures TableReads(BodiesC, ReadWidths[8..12]) && TableFits(BodiesC, ReadWidths[8..12], AcceptedSizes[8..12], LastPlayerIndex[8..12])
  {
    FinalClassificationReads();
    LobbyInfoReads();
    CarDamageReads();
    SessionHistoryHeadReads();
    TableCFits();
  }

  lemma TableDFits()
    ensures TableFits(BodiesD, ReadWidths[12..], AcceptedSizes[12..], LastPlayerIndex[12..])
  {
  }

  lemma TableD()
    ensures |BodiesD| == 4
    ensures TableReads(BodiesD, ReadWidths[12..]) && TableFits(BodiesD, ReadWidths[12..], AcceptedSizes[12..], LastPlayerIndex[12..])
  {
    TyreSetsReads();
    MotionExReads();
    TimeTrialReads();
    LapPositionsHeadReads();
    TableDFits();
  }

  lemma TableAB()
    ensures |BodiesA + BodiesB| == 8
    ensures TableReads(BodiesA + BodiesB, ReadWidths[..8])
    ensures TableFits(BodiesA + BodiesB, ReadWidths[..8], AcceptedSizes[..8], LastPlayerIndex[..8])
  {
    TableA();
    TableB();
    var w, s, l := ReadWidths[..8], AcceptedSizes[..8], LastPlayerIndex[..8];
    assert w == ReadWidths[..4] + ReadWidths[4..8] && s == AcceptedSizes[..4] + AcceptedSizes[4..8];
    assert l == LastPlayerIndex[..4] + LastPlayerIndex[4..8];
    TableReadsAppend(BodiesA, ReadWidths[..4], BodiesB, ReadWidths[4..8]);
    TableFitsAppend(BodiesA, ReadWidths[..4], AcceptedSizes[..4], LastPlayerIndex[..4],
      BodiesB, ReadWidths[4..8], AcceptedSizes[4..8], LastPlayerIndex[4..8]);
  }

  lemma TableCD()
    ensures |BodiesC + BodiesD| == 8
    ensures TableReads(BodiesC + BodiesD, ReadWidths[8..])
    ensures TableFits(BodiesC + BodiesD, ReadWidths[8..], AcceptedSizes[8..], LastPlayerIndex[8..])
  {
    TableC();
    TableD();
    var w, s, l := ReadWidths[8..], AcceptedSizes[8..], LastPlayerIndex[8..];
    assert w == ReadWidths[8..12] + ReadWidths[12..] && s == AcceptedSizes[8..12] + AcceptedSizes[12..];
    assert l == LastPlayerIndex[8..12] + LastPlayerIndex[12..];
    TableReadsAppend(BodiesC, ReadWidths[8..12], BodiesD, ReadWidths[12..]);
    TableFitsAppend(BodiesC, ReadWidths[8..12], AcceptedSizes[8..12], LastPlayerIndex[8..12],
      BodiesD, ReadWidths[12..], AcceptedSizes[12..], LastPlayerIndex[12..]);
  }

  /**
   * Each of the sixteen fixed parts reads the width listed for it and no
   * header key, and fits in its accepted size for exactly the player indices
   * up to its `LastPlayerIndex` entry.
   */
  lemma Table()
    ensures |Bodies| == 16
    ensures TableReads(Bodies, ReadWidths) && TableFits(Bodies, ReadWidths, AcceptedSizes, LastPlayerIndex)
  {
    TableAB();
    TableCD();
    assert Bodies == (BodiesA + BodiesB) + (BodiesC + BodiesD);
    assert ReadWidths == ReadWidths[..8] + ReadWidths[8..];
    assert AcceptedSizes == AcceptedSizes[..8] + AcceptedSizes[8..];
    assert LastPlayerIndex == LastPlayerIndex[..8] + LastPlayerIndex[8..];
    TableReadsAppend(BodiesA + BodiesB, ReadWidths[..8], BodiesC + BodiesD, ReadWidths[8..]);
    TableFitsAppend(BodiesA + BodiesB, ReadWidths[..8], AcceptedSizes[..8], LastPlayerIndex[..8],
      BodiesC + BodiesD, ReadWidths[8..], AcceptedSizes[8..], LastPlayerIndex[8..]);
  }

  /** Every body reads within what its record checks. */
  lemma TableReading()
    ensures |Bodies| == 16 && TableReads(Bodies, ReadWidths)
  {
    Table();
  }

  /**
   * What `decode` adds after the fixed part: the session history loops after
   * its head and the lap positions matrix after its two counts; nothing for
   * the other ids, and nothing once the fixed part has failed.
   */
  function AfterBody(buf: seq<byte>, r: Option<Frame>): Option<Frame>
    requires r.Some? ==> |buf| >= HeaderSize
  {
    if r.None? then None
    else if buf[6] == 11 then Some(ReadBounded(buf, HistoryStart, HistoryArrays, r.value))
    else if buf[6] == 15 then Some(r.value["positionData" := Matrix(PositionRows(buf, PositionsStart, MaxLaps, MaxCars))])
    else r
  }

  /** The F1 25 `decode`. */
  function Decode(buf: seq<byte>, now: int): (r: Option<Frame>)
    ensures |buf| < HeaderSize ==> r.None?
  {
    AfterBody(buf, DecodePacket(buf, Bodies, now))
  }

  method DecodeBytes(buf: seq<byte>, now: int) returns (r: Option<Frame>)
    ensures r == Decode(buf, now)
  {
    r := DecodeWalk(buf, Bodies, now);
    if r.Some? && buf[6] == 11 {
      var f := ReadBoundedArrays(buf, HistoryStart, HistoryArrays, r.value);
      r := Some(f);
    } else if r.Some? && buf[6] == 15 {
      var rows := ReadPositionRows(buf, PositionsStart, MaxLaps, MaxCars);
      r := Some(r.value["positionData" := Matrix(rows)]);
    }
  }

  /** No two session history loops share a key. */
  lemma HistoryNames()
    ensures DistinctNames(HistoryArrays)
  {
  }

  /** No session history loop writes a header key. */
  lemma HistoryNotHeader()
    ensures forall i | 0 <= i < |HistoryArrays| :: HistoryArrays[i].name !in HeaderKeys
  {
  }

  /** The loops never fail, and the frames of the other ids pass through unchanged. */
  lemma AfterBodyPlain(buf: seq<byte>, r: Option<Frame>)
    requires r.Some? ==> |buf| >= HeaderSize
    ensures AfterBody(buf, r).Some? == r.Some?
    ensures r.Some? && buf[6] != 11 && buf[6] != 15 ==> AfterBody(buf, r) == r
  {
  }

  /** For the ids without loops `decode` is the table dispatch. */
  lemma DecodePlain(buf: seq<byte>, now: int)
    requires |buf| >= HeaderSize && buf[6] != 11 && buf[6] != 15
    ensures Decode(buf, now) == DecodePacket(buf, Bodies, now)
  {
    AfterBodyPlain(buf, DecodePacket(buf, Bodies, now));
  }

  /** The frame carries the header part as `headerToFrame` renders it, and a `packet_type`. */
  predicate CarriesHeader(f: Frame, h: Header, now: int)
  {
    && (forall k | k in HeaderFrame(h, now) :: k in f && f[k] == HeaderFrame(h, now)[k])
    && "packet_type" in f
  }

  /** The loops keep every header key of the frame with its value. */
  lemma AfterBodyKeeps(buf: seq<byte>, r: Option<Frame>, h: Header, now: int)
    requires r.Some? ==> |buf| >= HeaderSize && CarriesHeader(r.value, h, now)
    ensures var f := AfterBody(buf, r);
      f.Some? ==> CarriesHeader(f.value, h, now) && f.value["packet_type"] == r.value["packet_type"]
  {
    if r.Some? && buf[6] == 11 {
      HistoryNotHeader();
      BoundedKeepsHeader(buf, HistoryStart, HistoryArrays, r.value, h, now);
    } else if r.Some? && buf[6] == 15 {
      MatrixKeepsHeader(r.value, Matrix(PositionRows(buf, PositionsStart, MaxLaps, MaxCars)), h, now);
    }
  }

  /** A run of arrays none of which is named like a header key keeps the header part of a frame. */
  lemma BoundedKeepsHeader(buf: seq<byte>, pos: nat, arrays: seq<Bounded>, acc: Frame, h: Header, now: int)
    requires forall i | 0 <= i < |arrays| :: arrays[i].name !in HeaderKeys
    requires CarriesHeader(acc, h, now)
    ensures var f := ReadBounded(buf, pos, arrays, acc);
      CarriesHeader(f, h, now) && f["packet_type"] == acc["packet_type"]
  {
    BaseFrameKeys(h, now, 0);
    forall k | k in HeaderFrame(h, now) || k == "packet_type"
      ensures var f := ReadBounded(buf, pos, arrays, acc); k in f && f[k] == acc[k]
    {
      assert k in BaseFrame(h, now, 0);
      ReadBoundedKeeps(buf, pos, arrays, acc, k);
    }
  }

  /** Adding `positionData` keeps the header part of a frame. */
  lemma MatrixKeepsHeader(acc: Frame, v: Value, h: Header, now: int)
    requires CarriesHeader(acc, h, now)
    ensures var f := acc["positionData" := v];
      CarriesHeader(f, h, now) && f["packet_type"] == acc["packet_type"]
  {
    BaseFrameKeys(h, now, 0);
    PositionDataNotHeader();
    var f := acc["positionData" := v];
    forall k | k in HeaderFrame(h, now)
      ensures k in f && f[k] == HeaderFrame(h, now)[k]
    {
      assert k in BaseFrame(h, now, 0) && k in HeaderKeys;
    }
  }

  /**
   * A known packet decodes exactly when the body decoder's size check passes
   * and every byte its fixed part reads lies in the buffer; the loops after
   * it never fail. Lap data (55 of 53), car status (55 of 47) and motion ex
   * (188 of 156) read past their check.
   */
  lemma DecodeSome(buf: seq<byte>, now: int)
    requires |buf| >= HeaderSize && buf[6] < 16
    ensures var b := Bodies[buf[6]];
      var start := Start(b, buf[27]);
      Decode(buf, now).Some? <==> start + b.size <= |buf| && start + ReadWidths[buf[6]] <= |buf|
  {
    Table();
    PacketSome(buf, Bodies, ReadWidths, now);
    AfterBodyPlain(buf, DecodePacket(buf, Bodies, now));
  }

  /**
   * Every frame carries the header fields as `headerToFrame` renders them,
   * and `packet_type` is the packet id, known or not.
   */
  lemma DecodeHeader(buf: seq<byte>, now: int)
    requires Decode(buf, now).Some?
    ensures var f := Decode(buf, now).value;
      var h := ReadHeader(buf).value;
      && (forall k | k in HeaderFrame(h, now) :: k in f && f[k] == HeaderFrame(h, now)[k])
      && "packet_type" in f && f["packet_type"] == Int(buf[6])
  {
    Table();
    var r := DecodePacket(buf, Bodies, now);
    PacketHeader(buf, Bodies, ReadWidths, now);
    AfterBodyKeeps(buf, r, ReadHeader(buf).value, now);
  }

  /**
   * Player isolation: for the bodies that read no more than they check and
   * have no loops after them, two packets with the same header (and count
   * byte) whose player records agree decode to the same frame.
   */
  lemma DecodeWindow(b1: seq<byte>, b2: seq<byte>, now: int)
    requires |b1| >= HeaderSize && |b2| >= HeaderSize && b1[..HeaderSize] == b2[..HeaderSize]
    requires b1[6] < 16 && b1[6] != 11 && b1[6] != 15 && ReadWidths[b1[6]] <= Bodies[b1[6]].size
    requires Bodies[b1[6]].Counted? ==> |b1| > HeaderSize && |b2| > HeaderSize && b1[HeaderSize] == b2[HeaderSize]
    requires var b := Bodies[b1[6]]; SameBytes(b1, Start(b, b1[27]), b2, Start(b, b1[27]), b.size)
    ensures Decode(b1, now) == Decode(b2, now)
  {
    TableReading();
    assert b2[6] == b2[..HeaderSize][6] == b1[..HeaderSize][6] == b1[6];
    PacketWindow(b1, b2, Bodies, ReadWidths, now);
    DecodePlain(b1, now);
    DecodePlain(b2, now);
  }

  /** Sixteen distinct sizes, each holding at least the header. */
  lemma AcceptedSizesShape()
    ensures |AcceptedSizes| == 16
    ensures forall i | 0 <= i < |AcceptedSizes| :: AcceptedSizes[i] >= HeaderSize
    ensures forall i, j | 0 <= i < j < |AcceptedSizes| :: AcceptedSizes[i] != AcceptedSizes[j]
  {
  }

  /**
   * A packet of its listed size decodes exactly for the player indices up to
   * the id's `LastPlayerIndex` entry. The F1 25 sizes do not all hold a
   * 22-car grid: participants and final classification stop at index 20,
   * car damage at 19, and motion ex only decodes for index 0.
   */
  lemma AcceptedSizeDecodes(buf: seq<byte>, now: int)
    requires |buf| >= HeaderSize && buf[6] < 16 && |buf| == AcceptedSizes[buf[6]]
    ensures Decode(buf, now).Some? <==> buf[27] <= LastPlayerIndex[buf[6]]
  {
    Table();
    PacketAtSize(buf, Bodies, ReadWidths, AcceptedSizes, LastPlayerIndex, now);
  }

  /** At the listed motion ex size of 237 bytes only the first car's record can be decoded. */
  lemma MotionExAtListedSize(buf: seq<byte>, now: int)
    requires |buf| == 237 && buf[6] == 13
    ensures Decode(buf, now).Some? <==> buf[27] == 0
  {
    AcceptedSizeDecodes(buf, now);
  }

  /** A session history packet decodes exactly when its eight head bytes are there. */
  lemma SessionHistorySome(buf: seq<byte>, now: int)
    requires |buf| >= HeaderSize && buf[6] == 11
    ensures Decode(buf, now).Some? <==> |buf| >= HeaderSize + 8
  {
    DecodeSome(buf, now);
  }

  /**
   * Each session history array is its loop's early-exit read at the cursor
   * the previous loop left: the lap times first, from byte 36, in wire order.
   */
  lemma SessionHistoryArrays(buf: seq<byte>, now: int, k: nat)
    requires |buf| >= HeaderSize && buf[6] == 11 && Decode(buf, now).Some? && k < |HistoryArrays|
    ensures var f := Decode(buf, now).value;
      var a := HistoryArrays[k];
      a.name in f && f[a.name] == List(UpTo(buf, Cursor(buf, HistoryStart, HistoryArrays, k), a.max, a.width))
  {
    HistoryNames();
    ReadBoundedAt(buf, HistoryStart, HistoryArrays, DecodePacket(buf, Bodies, now).value, k);
  }

  /** A lap positions packet decodes exactly when `numLaps` and `lapStart` are there. */
  lemma LapPositionsSome(buf: seq<byte>, now: int)
    requires |buf| >= HeaderSize && buf[6] == 15
    ensures Decode(buf, now).Some? <==> |buf| >= PositionsStart
  {
    DecodeSome(buf, now);
  }

  /**
   * `positionData` holds the rows of the nested loop: between 1 and 50 rows
   * of at most 22 positions, every row but the last full, and together they
   * are the bytes after the two counts, up to 1100 or to the end.
   */
  lemma LapPositionsMatrix(buf: seq<byte>, now: int)
    requires |buf| >= HeaderSize && buf[6] == 15 && Decode(buf, now).Some?
    ensures var f := Decode(buf, now).value;
      var rows := PositionRows(buf, PositionsStart, MaxLaps, MaxCars);
      && "positionData" in f && f["positionData"] == Matrix(rows)
      && 1 <= |rows| <= MaxLaps
      && (forall i | 0 <= i < |rows| :: |rows[i]| <= MaxCars)
      && (forall i | 0 <= i < |rows| - 1 :: |rows[i]| == MaxCars)
      && Flatten(rows) == UpTo(buf, PositionsStart, MaxLaps * MaxCars, 1)
      && |Flatten(rows)| == if |buf| - PositionsStart >= 1100 then 1100 else |buf| - PositionsStart
  {
    LapPositionsSome(buf, now);
    PositionRowsShape(buf, PositionsStart, MaxLaps, MaxCars);
    PositionRowsFlat(buf, PositionsStart, MaxLaps, MaxCars);
    BytesUpTo(buf, PositionsStart, MaxLaps * MaxCars);
  }

  /** The names `getPacketTypeName` lists, in packet id order. */
  const PacketNames: seq<string> := [
    "Motion", "Session", "Lap Data", "Event", "Participants", "Car Setups", "Car Telemetry",
    "Car Status", "Final Classification", "Lobby Info", "Car Damage", "Session History",
    "Tyre Sets", "Motion Ex", "Time Trial", "Lap Positions"]

  /** `getPacketTypeName`. */
  function PacketTypeName(id: int): string
  {
    TypeName(PacketNames, id)
  }

  /** `getSupportedPacketTypes`. */
  const SupportedPacketTypes: seq<PacketType> := [
    PacketType(0, "Motion"), PacketType(1, "Session"), PacketType(2, "Lap Data"),
    PacketType(3, "Event"), PacketType(4, "Participants"), PacketType(5, "Car Setups"),
    PacketType(6, "Car Telemetry"), PacketType(7, "Car Status"),
    PacketType(8, "Final Classification"), PacketType(9, "Lobby Info"),
    PacketType(10, "Car Damage"), PacketType(11, "Session History"),
    PacketType(12, "Tyre Sets"), PacketType(13, "Motion Ex"), PacketType(14, "Time Trial"),
    PacketType(15, "Lap Positions")]

  /** The supported list is the ids 0 to 15 in order, each with the name the getter gives. */
  lemma SupportedAgree()
    ensures |SupportedPacketTypes| == |PacketNames| == 16
    ensures forall i | 0 <= i < |SupportedPacketTypes| ::
      SupportedPacketTypes[i].id == i && PacketTypeName(i) == SupportedPacketTypes[i].name
  {
  }

  /** The listed names differ in length or in their sixth character. */
  lemma NameSignatures()
    ensures |PacketNames| == 16
    ensures forall i, j | 0 <= i < j < 16 ::
      var a, b := PacketNames[i], PacketNames[j];
      |a| != |b| || (|a| > 5 && a[5] != b[5])
  {
  }

  /** The listed names are distinct and none reads like an unknown id's name. */
  lemma PacketNamesTable()
    ensures NameTable(PacketNames)
  {
    NameSignatures();
  }

  /** The names in the supported list are distinct. */
  lemma SupportedNamesDistinct()
    ensures forall i, j | 0 <= i < j < |SupportedPacketTypes| ::
      SupportedPacketTypes[i].name != SupportedPacketTypes[j].name
  {
    PacketNamesTable();
    SupportedAgree();
  }

  /** Different packet types get different names, listed or `Unknown_<id>`. */
  lemma PacketTypeNameInjective(a: int, b: int)
    requires PacketTypeName(a) == PacketTypeName(b)
    ensures a == b
  {
    PacketNamesTable();
    TypeNameInjective(PacketNames, a, b);
  }
}
