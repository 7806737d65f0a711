/**
 * The F1 24 decoder (`F1Decoder`): the size gate, the header, dispatch on
 * the packet id to one of fifteen body decoders, and the name and size
 * getters. A read error inside a body decoder is caught and the result is
 * `null`, so the decoder is total: `None` covers both the early returns and
 * the caught errors.
 */
module F1Decoder24 {
  import opened Wire
  import opened Frames
  import opened Layout
  import opened F1Common
  import opened F1Layouts24

  /** The body decoders of packet ids 0 to 4, 5 to 9 and 10 to 14. */
  const BodiesA: seq<Body> := [
    PerCar(60, Motion),
    Whole(724, Session),
    PerCar(53, LapData),
    Whole(7, Event),
    Counted("numActiveCars", 56, Participants)]

  const BodiesB: seq<Body> := [
    PerCar(49, CarSetups),
    PerCar(60, CarTelemetry),
    PerCar(47, CarStatus),
    Counted("numCars", 45, FinalClassification),
    Counted("numPlayers", 54, LobbyInfo)]

  const BodiesC: seq<Body> := [
    PerCar(42, CarDamage),
    Whole(1431, SessionHistory),
    Whole(202, TyreSets),
    Whole(208, MotionEx),
    Whole(24, TimeTrial)]

  /** The body decoder of each packet id, in `F1PacketType` order. */
  const Bodies: seq<Body> := BodiesA + BodiesB + BodiesC

  /** The bytes each body decoder reads from its start, in packet id order. */
  const ReadWidths: seq<nat> := [60, 724, 57, 4, 60, 49, 60, 55, 45, 54, 42, 1431, 202, 208, 24]

  /** `getAcceptedPacketSizes`, in packet id order. */
  const AcceptedSizes: seq<nat> := [1349, 753, 1285, 45, 1350, 1133, 1352, 1239, 1020, 1306, 953, 1460, 231, 237, 101]

  /**
   * The last player index whose packet of the accepted size decodes, per
   * packet id; 255 where the body does not depend on the index.
   */
  const LastPlayerIndex: seq<nat> := [21, 255, 22, 255, 22, 21, 21, 24, 21, 22, 21, 255, 255, 255, 255]

  lemma MotionReads()
    ensures Reads(PerCar(60, Motion), 60)
  {
    MotionShape();
  }

  lemma SessionReads()
    ensures Reads(Whole(724, Session), 724)
  {
    SessionShape();
  }

  lemma LapDataReads()
    ensures Reads(PerCar(53, LapData), 57)
  {
    LapDataShape();
  }

  lemma EventReads()
    ensures Reads(Whole(7, Event), 4)
  {
    EventShape();
  }

  lemma ParticipantsReads()
    ensures Reads(Counted("numActiveCars", 56, Participants), 60)
  {
    ParticipantsShape();
  }

  lemma CarSetupsReads()
    ensures Reads(PerCar(49, CarSetups), 49)
  {
    CarSetupsShape();
  }

  lemma CarTelemetryReads()
    ensures Reads(PerCar(60, CarTelemetry), 60)
  {
    CarTelemetryShape();
  }

  lemma CarStatusReads()
    ensures Reads(PerCar(47, CarStatus), 55)
  {
    CarStatusShape();
  }

  lemma FinalClassificationReads()
    ensures Reads(Counted("numCars", 45, FinalClassification), 45)
  {
    FinalClassificationShape();
  }

  lemma LobbyInfoReads()
    ensures Reads(Counted("numPlayers", 54, LobbyInfo), 54)
  {
    LobbyInfoShape();
  }

  lemma CarDamageReads()
    ensures Reads(PerCar(42, CarDamage), 42)
  {
    CarDamageShape();
  }

  lemma SessionHistoryReads()
    ensures Reads(Whole(1431, SessionHistory), 1431)
  {
    SessionHistoryShape();
  }

  lemma TyreSetsReads()
    ensures Reads(Whole(202, TyreSets), 202)
  {
    TyreSetsShape();
  }

  lemma MotionExReads()
    ensures Reads(Whole(208, MotionEx), 208)
  {
    MotionExShape();
  }

  lemma TimeTrialReads()
    ensures Reads(Whole(24, TimeTrial), 24)
  {
    TimeTrialShape();
  }

  lemma TableAFits()
    ensures TableFits(BodiesA, ReadWidths[..5], AcceptedSizes[..5], LastPlayerIndex[..5])
  {
  }

  lemma TableA()
    ensures |BodiesA| == 5
    ensures TableReads(BodiesA, ReadWidths[..5]) && TableFits(BodiesA, ReadWidths[..5], AcceptedSizes[..5], LastPlayerIndex[..5])
  {
    MotionReads();
    SessionReads();
    LapDataReads();
    EventReads();
    ParticipantsReads();
    TableAFits();
  }

  lemma TableBFits()
    ensures TableFits(BodiesB, ReadWidths[5..10], AcceptedSizes[5..10], LastPlayerIndex[5..10])
  {
  }

  lemma TableB()
    ensures |BodiesB| == 5
    ensures TableReads(BodiesB, ReadWidths[5..10]) && TableFits(BodiesB, ReadWidths[5..10], AcceptedSizes[5..10], LastPlayerIndex[5..10])
  {
    CarSetupsReads();
    CarTelemetryReads();
    CarStatusReads();
    FinalClassificationReads();
    LobbyInfoReads();
    TableBFits();
  }

  lemma TableCFits()
    ensures TableFits(BodiesC, ReadWidths[10..], AcceptedSizes[10..], LastPlayerIndex[10..])
  {
  }

  lemma TableC()
    ensures |BodiesC| == 5
    ensures TableReads(BodiesC, ReadWidths[10..]) && TableFits(BodiesC, ReadWidths[10..], AcceptedSizes[10..], LastPlayerIndex[10..])
  {
    CarDamageReads();
    SessionHistoryReads();
    TyreSetsReads();
    MotionExReads();
    TimeTrialReads();
    TableCFits();
  }

  /**
   * Each of the fifteen body decoders reads the width listed for it and no
   * header key, and fits in its accepted size for exactly the player indices
   * up to its `LastPlayerIndex` entry.
   */
  lemma Table()
    ensures |Bodies| == 15
    ensures TableReads(Bodies, ReadWidths) && TableFits(Bodies, ReadWidths, AcceptedSizes, LastPlayerIndex)
  {
    TableA();
    TableB();
    TableC();
    assert ReadWidths == ReadWidths[..5] + ReadWidths[5..10] + ReadWidths[10..];
    assert AcceptedSizes == AcceptedSizes[..5] + AcceptedSizes[5..10] + AcceptedSizes[10..];
    assert LastPlayerIndex == LastPlayerIndex[..5] + LastPlayerIndex[5..10] + LastPlayerIndex[10..];
    TableReadsAppend(BodiesA, ReadWidths[..5], BodiesB, ReadWidths[5..10]);
    TableReadsAppend(BodiesA + BodiesB, ReadWidths[..5] + ReadWidths[5..10], BodiesC, ReadWidths[10..]);
    TableFitsAppend(BodiesA, ReadWidths[..5], AcceptedSizes[..5], LastPlayerIndex[..5],
      BodiesB, ReadWidths[5..10], AcceptedSizes[5..10], LastPlayerIndex[5..10]);
    TableFitsAppend(BodiesA + BodiesB, ReadWidths[..5] + ReadWidths[5..10], AcceptedSizes[..5] + AcceptedSizes[5..10],
      LastPlayerIndex[..5] + LastPlayerIndex[5..10], BodiesC, ReadWidths[10..], AcceptedSizes[10..], LastPlayerIndex[10..]);
  }

  /** The F1 24 `decode`. */
  function Decode(buf: seq<byte>, now: int): (r: Option<Frame>)
    ensures |buf| < HeaderSize ==> r.None?
  {
    DecodePacket(buf, Bodies, now)
  }

  method DecodeBytes(buf: seq<byte>, now: int) returns (r: Option<Frame>)
    ensures r == Decode(buf, now)
  {
    r := DecodeWalk(buf, Bodies, now);
  }

  /**
   * A known packet decodes exactly when the body decoder's size check passes
   * and every byte it reads lies in the buffer. Where the read runs past the
   * check (lap data 57 of 53, car status 55 of 47, participants 60 of 56) a
   * buffer that passes the check can still fail, through the caught error.
   */
  lemma DecodeSome(buf: seq<byte>, now: int)
    requires |buf| >= HeaderSize && buf[6] < 15
    ensures var b := Bodies[buf[6]];
      var start := Start(b, buf[27]);
      Decode(buf, now).Some? <==> start + b.size <= |buf| && start + ReadWidths[buf[6]] <= |buf|
  {
    Table();
    PacketSome(buf, Bodies, ReadWidths, now);
  }

  /**
   * Every frame carries the header fields as `headerToFrame` renders them,
   * and `packet_type` is the packet id, known or not.
   */
  lemma DecodeHeader(buf: seq<byte>, now: int)
    requires Decode(buf, now).Some?
    ensures var f := Decode(buf, now).value;
      var h := ReadHeader(buf).value;
      && (forall k | k in HeaderFrame(h, now) :: k in f && f[k] == HeaderFrame(h, now)[k])
      && "packet_type" in f && f["packet_type"] == Int(buf[6])
  {
    Table();
    PacketHeader(buf, Bodies, ReadWidths, now);
  }

  /**
   * Player isolation: for the bodies that read no more than they check, two
   * packets with the same header (and count byte) whose player records agree
   * decode to the same frame, whatever the other cars' records hold.
   */
  lemma DecodeWindow(b1: seq<byte>, b2: seq<byte>, now: int)
    requires |b1| >= HeaderSize && |b2| >= HeaderSize && b1[..HeaderSize] == b2[..HeaderSize]
    requires b1[6] < 15 && ReadWidths[b1[6]] <= Bodies[b1[6]].size
    requires Bodies[b1[6]].Counted? ==> |b1| > HeaderSize && |b2| > HeaderSize && b1[HeaderSize] == b2[HeaderSize]
    requires var b := Bodies[b1[6]]; SameBytes(b1, Start(b, b1[27]), b2, Start(b, b1[27]), b.size)
    ensures Decode(b1, now) == Decode(b2, now)
  {
    Table();
    PacketWindow(b1, b2, Bodies, ReadWidths, now);
  }

  /** Fifteen distinct sizes, each holding at least the header. */
  lemma AcceptedSizesShape()
    ensures |AcceptedSizes| == 15
    ensures forall i | 0 <= i < |AcceptedSizes| :: AcceptedSizes[i] >= HeaderSize
    ensures forall i, j | 0 <= i < j < |AcceptedSizes| :: AcceptedSizes[i] != AcceptedSizes[j]
  {
  }

  /**
   * A packet of its listed size decodes exactly for the player indices up to
   * the id's `LastPlayerIndex` entry: every index of a 22-car grid (0 to 21),
   * and for lap data, participants and lobby one more, for car status three
   * more, including the three bodies that read past their check.
   */
  lemma AcceptedSizeDecodes(buf: seq<byte>, now: int)
    requires |buf| >= HeaderSize && buf[6] < 15 && |buf| == AcceptedSizes[buf[6]]
    ensures Decode(buf, now).Some? <==> buf[27] <= LastPlayerIndex[buf[6]]
  {
    Table();
    PacketAtSize(buf, Bodies, ReadWidths, AcceptedSizes, LastPlayerIndex, now);
  }

  /** At the listed motion size of 1349 bytes, motion decodes exactly for player indices 0 to 21. */
  lemma MotionAtListedSize(buf: seq<byte>, now: int)
    requires |buf| == 1349 && buf[6] == 0
    ensures Decode(buf, now).Some? <==> buf[27] <= 21
  {
    AcceptedSizeDecodes(buf, now);
  }

  /** The names `getPacketTypeName` lists, in packet id order. */
  const PacketNames: seq<string> := [
    "Motion", "Session", "Lap Data", "Event", "Participants", "Car Setups", "Car Telemetry",
    "Car Status", "Final Classification", "Lobby Info", "Car Damage", "Session History",
    "Tyre Sets", "Motion Ex", "Time Trial"]

  /** `getPacketTypeName`. */
  function PacketTypeName(id: int): string
  {
    TypeName(PacketNames, id)
  }

  /** `getSupportedPacketTypes`. */
  const SupportedPacketTypes: seq<PacketType> := [
    PacketType(0, "Motion"), PacketType(1, "Session"), PacketType(2, "Lap Data"),
    PacketType(3, "Event"), PacketType(4, "Participants"), PacketType(5, "Car Setups"),
    PacketType(6, "Car Telemetry"), PacketType(7, "Car Status"),
    PacketType(8, "Final Classification"), PacketType(9, "Lobby Info"),
    PacketType(10, "Car Damage"), PacketType(11, "Session History"),
    PacketType(12, "Tyre Sets"), PacketType(13, "Motion Ex"), PacketType(14, "Time Trial")]

  /** The supported list is the ids 0 to 14 in order, each with the name the getter gives. */
  lemma SupportedAgree()
    ensures |SupportedPacketTypes| == |PacketNames| == 15
    ensures forall i | 0 <= i < |SupportedPacketTypes| ::
      SupportedPacketTypes[i].id == i && PacketTypeName(i) == SupportedPacketTypes[i].name
  {
  }

  /** The listed names differ in length or in their sixth character. */
  lemma NameSignatures()
    ensures |PacketNames| == 15
    ensures forall i, j | 0 <= i < j < 15 ::
      var a, b := PacketNames[i], PacketNames[j];
      |a| != |b| || (|a| > 5 && a[5] != b[5])
  {
  }

  /** The listed names are distinct and none reads like an unknown id's name. */
  lemma PacketNamesTable()
    ensures NameTable(PacketNames)
  {
    NameSignatures();
  }

  /** The names in the supported list are distinct. */
  lemma SupportedNamesDistinct()
    ensures forall i, j | 0 <= i < j < |SupportedPacketTypes| ::
      SupportedPacketTypes[i].name != SupportedPacketTypes[j].name
  {
    PacketNamesTable();
    SupportedAgree();
  }

  /** Different packet types get different names, listed or `Unknown_<id>`. */
  lemma PacketTypeNameInjective(a: int, b: int)
    requires PacketTypeName(a) == PacketTypeName(b)
    ensures a == b
  {
    PacketNamesTable();
    TypeNameInjective(PacketNames, a, b);
  }
}
