/**
 * Spreadsheet import and export of recorded telemetry
 * (`src/utils/xlsx-helpers.ts`): one worksheet per packet type whose name
 * carries the type, the normalisation of rows read back into frames, the
 * legacy CSV import and the name of the exported file.
 *
 * The spreadsheet library is not modelled: a worksheet is its name and the
 * rows that `sheet_to_json` gives back, and a sheet written from frames is
 * read back as those frames.
 */
module Xlsx {
  import opened Wire
  import opened Frames

  // ---------------------------------------------------------------------
  // JavaScript truthiness of frame values

  /** `!!v`: zero, NaN and the empty string are falsy, objects are truthy. */
  predicate Truthy(v: Value)
  {
    match v
    case Int(i) => i != 0
    case Bits32(b) => b % 0x8000_0000 != 0 && !(b / 0x80_0000 % 0x100 == 0xFF && b % 0x80_0000 != 0)
    case Bits64(b) =>
      b % 0x8000_0000_0000_0000 != 0
      && !(b / 0x10_0000_0000_0000 % 0x800 == 0x7FF && b % 0x10_0000_0000_0000 != 0)
    case Num(r) => r != 0.0
    case Root(x) => x > 0.0
    case Str(s) => |s| > 0
    case Units(u) => |u| > 0
    case List(_) => true
    case Obj(_) => true
  }

  /** The frame's `t` is kept: present and either truthy or a number (so `t = 0` stays). */
  predicate HasTime(f: Frame)
  {
    "t" in f && (Truthy(f["t"]) || IsNumber(f["t"]))
  }

  /** The field is present, truthy and a number. */
  predicate TruthyNumber(f: Frame, key: string)
  {
    key in f && Truthy(f[key]) && IsNumber(f[key])
  }

  /** The time an imported sheet row falls back on: the first truthy number of three fields, else its index. */
  function SheetTime(f: Frame, index: nat): Value
  {
    if TruthyNumber(f, "TimestampMS") then f["TimestampMS"]
    else if TruthyNumber(f, "timestamp") then f["timestamp"]
    else if TruthyNumber(f, "CurrentRaceTime") then f["CurrentRaceTime"]
    else Int(index)
  }

  // ---------------------------------------------------------------------
  // Sheet names

  /**
   * What the decoder's `getPacketTypeName` gave for a type: there is no
   * decoder or no such function, a name, or a thrown error.
   */
  datatype Naming = NoNamer | Named(name: string) | NameFailed

  /** The tab name of a packet type's sheet. */
  function SheetName(packetType: int, naming: Naming): string
  {
    match naming
    case NoNamer => "Packet_" + IntString(packetType)
    case Named(n) => IntString(packetType) + "_" + n
    case NameFailed => IntString(packetType) + "_Unknown"
  }

  /** An ASCII digit, as `\d` matches without the `u` flag. */
  predicate IsDigit(c: char)
  {
    '0' <= c <= '9'
  }

  /** The length of the run of digits that starts `s`. */
  function DigitRun(s: string): (n: nat)
    ensures n <= |s|
    ensures forall i | 0 <= i < n :: IsDigit(s[i])
    ensures n < |s| ==> !IsDigit(s[n])
  {
    if s != [] && IsDigit(s[0]) then
      var n := 1 + DigitRun(s[1..]);
      assert forall i | 1 <= i < n :: s[i] == s[1..][i - 1];
      n
    else 0
  }

  /** `Packet_` and a digit start at index `j` of `s`. */
  predicate PacketAt(s: string, j: nat)
  {
    j + 8 <= |s| && s[j..j + 7] == "Packet_" && IsDigit(s[j + 7])
  }

  /** The leftmost match of `Packet_\d` at or after `from`, if any. */
  function PacketMatch(s: string, from: nat): (m: Option<nat>)
    ensures m.Some? ==> from <= m.value && PacketAt(s, m.value)
    decreases |s| - from
  {
    if from + 8 > |s| then None
    else if PacketAt(s, from) then Some(from)
    else PacketMatch(s, from + 1)
  }

  /**
   * The packet type a sheet name stands for: leading digits followed by
   * `_`, else the digits after the first `Packet_`, else 1.
   */
  function ParseSheetName(name: string): int
  {
    var d := DigitRun(name);
    if 0 < d < |name| && name[d] == '_' then ParseDecimal(name[..d])
    else
      var m := PacketMatch(name, 0);
      if m.None? then 1
      else
        var digits := name[m.value + 7..];
        ParseDecimal(digits[..DigitRun(digits)])
  }

  // ---------------------------------------------------------------------
  // Export

  /** A worksheet: its tab name and the rows `sheet_to_json` reads from it. */
  datatype Sheet = Sheet(name: string, rows: seq<Frame>)

  /**
   * The sheet written when there is no data: its one cell is read as the
   * header row, so it has no rows.
   */
  const NoDataSheet := Sheet("Empty", [])

  predicate Increasing(s: seq<int>)
  {
    forall i, j | 0 <= i < j < |s| :: s[i] < s[j]
  }

  lemma Inhabited(s: set<int>)
    requires |s| > 0
    ensures exists y :: y in s
  {
    if forall y :: y !in s {
      assert false;
    }
  }

  /** The least element of a non-empty set. */
  ghost function Least(s: set<int>): (m: int)
    requires |s| > 0
    ensures m in s
    ensures forall y | y in s :: m <= y
    decreases |s|
  {
    Inhabited(s);
    var x :| x in s;
    var rest := s - {x};
    if |rest| == 0 then
      assert forall y | y in s :: y == x by {
        forall y | y in s ensures y == x {
          assert y == x || y in rest;
        }
      }
      x
    else
      var m := Least(rest);
      if x < m then x else m
  }

  /** The packet types in numeric order (`sort((a, b) => a - b)`). */
  ghost function Ascending(s: set<int>): (r: seq<int>)
    ensures Increasing(r)
    ensures forall x :: x in r <==> x in s
    decreases |s|
  {
    if s == {} then []
    else
      var m := Least(s);
      var rest := Ascending(s - {m});
      AscendingCons(s, m, rest);
      [m] + rest
  }

  lemma AscendingCons(s: set<int>, m: int, rest: seq<int>)
    requires m in s && forall y | y in s :: m <= y
    requires Increasing(rest) && forall x :: x in rest <==> x in s - {m}
    ensures Increasing([m] + rest)
    ensures forall x :: x in [m] + rest <==> x in s
  {
    forall x | x in rest ensures m < x {
      assert x in s - {m};
    }
    IncreasingCons(m, rest);
  }

  /** The types whose buffer is not empty, in the given order. */
  function NonEmpty(types: seq<int>, buffers: map<int, seq<Frame>>): (r: seq<int>)
    ensures forall x :: x in r <==> x in types && x in buffers && |buffers[x]| > 0
    ensures Increasing(types) ==> Increasing(r)
  {
    if types == [] then []
    else
      var rest := NonEmpty(types[1..], buffers);
      var t := types[0];
      assert Increasing(types) ==> Increasing(types[1..]);
      assert Increasing(types) ==> forall x | x in rest :: t < x by {
        if Increasing(types) {
          forall x | x in rest ensures t < x {
            var j :| 0 <= j < |types[1..]| && types[1..][j] == x;
            assert types[j + 1] == x;
          }
        }
      }
      if t in buffers && |buffers[t]| > 0 then
        IncreasingCons(t, rest);
        [t] + rest
      else rest
  }

  lemma IncreasingCons(t: int, rest: seq<int>)
    ensures Increasing(rest) && (forall x | x in rest :: t < x) ==> Increasing([t] + rest)
  {
    if Increasing(rest) && (forall x | x in rest :: t < x) {
      forall i, j | 0 <= i < j < |[t] + rest| ensures ([t] + rest)[i] < ([t] + rest)[j] {
        assert ([t] + rest)[j] == rest[j - 1] && rest[j - 1] in rest;
        if i > 0 {
          assert ([t] + rest)[i] == rest[i - 1];
        }
      }
    }
  }

  /** One sheet per listed type, named through the decoder. */
  function SheetsOf(types: seq<int>, buffers: map<int, seq<Frame>>, namer: int -> Naming): seq<Sheet>
    requires forall t | t in types :: t in buffers
  {
    seq(|types|, i requires 0 <= i < |types| => Sheet(SheetName(types[i], namer(types[i])), buffers[types[i]]))
  }

  /**
   * `convertToXLSX`: a sheet per non-empty buffer in ascending type order,
   * or the single no-data sheet.
   */
  ghost function ExportSheets(buffers: map<int, seq<Frame>>, namer: int -> Naming): seq<Sheet>
  {
    SheetsFor(NonEmpty(Ascending(buffers.Keys), buffers), buffers, namer)
  }

  /** The sheets for the chosen types, or the no-data sheet when there are none. */
  function SheetsFor(types: seq<int>, buffers: map<int, seq<Frame>>, namer: int -> Naming): seq<Sheet>
    requires forall t | t in types :: t in buffers
  {
    if types == [] then [NoDataSheet] else SheetsOf(types, buffers, namer)
  }

  // ---------------------------------------------------------------------
  // Import

  /** A row read from a sheet of type `packetType`, with `t` and `packet_type` filled in. */
  function NormalizeRow(row: Frame, index: nat, packetType: int): Frame
  {
    var f := if HasTime(row) then row else row["t" := SheetTime(row, index)];
    if "packet_type" in f && Truthy(f["packet_type"]) then f else f["packet_type" := Int(packetType)]
  }

  function NormalizeRows(rows: seq<Frame>, packetType: int): seq<Frame>
  {
    seq(|rows|, i requires 0 <= i < |rows| => NormalizeRow(rows[i], i, packetType))
  }

  /** `parseXLSXToFrames`: sheets in order; empty ones are skipped, a later sheet of the same type wins. */
  function ParsedSheets(sheets: seq<Sheet>): map<int, seq<Frame>>
  {
    if sheets == [] then map[]
    else
      var m, last := ParsedSheets(sheets[..|sheets| - 1]), sheets[|sheets| - 1];
      if |last.rows| == 0 then m
      else
        var packetType := ParseSheetName(last.name);
        m[packetType := NormalizeRows(last.rows, packetType)]
  }

  /** The per-row body of `parseXLSXToFrames`: copy the row's keys, then fill `t` and `packet_type`. */
  method RowToFrame(row: Frame, index: nat, packetType: int) returns (frame: Frame)
    ensures frame == NormalizeRow(row, index, packetType)
  {
    frame := map[];
    var keys := row.Keys;
    while keys != {}
      invariant keys <= row.Keys
      invariant frame == map k | k in row.Keys - keys :: row[k]
      decreases keys
    {
      var key :| key in keys;
      frame := frame[key := row[key]];
      keys := keys - {key};
    }
    assert frame == row;
    if !("t" in frame && Truthy(frame["t"])) && !("t" in frame && IsNumber(frame["t"])) {
      if TruthyNumber(frame, "TimestampMS") {
        frame := frame["t" := frame["TimestampMS"]];
      } else if TruthyNumber(frame, "timestamp") {
        frame := frame["t" := frame["timestamp"]];
      } else if TruthyNumber(frame, "CurrentRaceTime") {
        frame := frame["t" := frame["CurrentRaceTime"]];
      } else {
        frame := frame["t" := Int(index)];
      }
    }
    if !("packet_type" in frame && Truthy(frame["packet_type"])) {
      frame := frame["packet_type" := Int(packetType)];
    }
  }

  /** `parseXLSXToFrames` over the sheets the library read. */
  method ParseXLSXToFrames(sheets: seq<Sheet>) returns (framesByPacketType: map<int, seq<Frame>>)
    ensures framesByPacketType == ParsedSheets(sheets)
  {
    framesByPacketType := map[];
    for i := 0 to |sheets|
      invariant framesByPacketType == ParsedSheets(sheets[..i])
    {
      assert sheets[..i + 1][..i] == sheets[..i];
      var rawData := sheets[i].rows;
      if |rawData| == 0 {
        continue;
      }
      var packetType := ParseSheetName(sheets[i].name);
      var frames: seq<Frame> := [];
      for index := 0 to |rawData|
        invariant |frames| == index
        invariant forall j | 0 <= j < index :: frames[j] == NormalizeRow(rawData[j], j, packetType)
      {
        var frame := RowToFrame(rawData[index], index, packetType);
        frames := frames + [frame];
      }
      assert frames == NormalizeRows(rawData, packetType);
      framesByPacketType := framesByPacketType[packetType := frames];
    }
    assert sheets[..|sheets|] == sheets;
  }

  // ---------------------------------------------------------------------
  // Properties of sheet names, export and import

  lemma {:induction false} DigitRunOf(digits: string, rest: string)
    requires forall i | 0 <= i < |digits| :: IsDigit(digits[i])
    requires rest == [] || !IsDigit(rest[0])
    ensures DigitRun(digits + rest) == |digits|
  {
    if digits != [] {
      assert (digits + rest)[1..] == digits[1..] + rest;
      DigitRunOf(digits[1..], rest);
    }
  }

  /** The leftmost match: none earlier, and the one found is a match. */
  lemma {:induction false} PacketMatchSpec(s: string, from: nat)
    ensures var m := PacketMatch(s, from);
      && (m.Some? ==> from <= m.value && PacketAt(s, m.value))
      && (forall j: nat | from <= j && (m.None? || j < m.value) :: !PacketAt(s, j))
    decreases |s| - from
  {
    if from + 8 <= |s| && !PacketAt(s, from) {
      PacketMatchSpec(s, from + 1);
    }
  }

  /** Rule one: a name that starts with digits and `_` stands for those digits. */
  lemma LeadingDigitsRule(name: string, digits: string, rest: string)
    requires forall i :: 0 <= i < |digits| ==> '0' <= digits[i] <= '9'
    requires |digits| > 0 && name == digits + ("_" + rest)
    ensures ParseSheetName(name) == ParseDecimal(digits)
  {
    DigitRunOf(digits, "_" + rest);
    assert name[|digits|] == '_';
    assert name[..|digits|] == digits;
  }

  /** Rule two: otherwise the digits of the first `Packet_<digits>` count. */
  lemma PacketPrefixRule(name: string, digits: string, rest: string)
    requires forall i :: 0 <= i < |digits| ==> '0' <= digits[i] <= '9'
    requires |digits| > 0 && (rest == [] || !IsDigit(rest[0]))
    requires name == "Packet_" + (digits + rest)
    ensures ParseSheetName(name) == ParseDecimal(digits)
  {
    assert (digits + rest)[0] == digits[0];
    PacketAtStart(name, digits + rest);
    LeadingRun(digits, rest);
  }

  /** The digit run of `digits + rest` reads as `digits`. */
  lemma LeadingRun(digits: string, rest: string)
    requires forall i :: 0 <= i < |digits| ==> '0' <= digits[i] <= '9'
    requires rest == [] || !IsDigit(rest[0])
    ensures ParseDecimal((digits + rest)[..DigitRun(digits + rest)]) == ParseDecimal(digits)
  {
    DigitRunOf(digits, rest);
    assert (digits + rest)[..|digits|] == digits;
  }

  lemma PacketAtStart(name: string, tail: string)
    requires name == "Packet_" + tail && |tail| > 0 && IsDigit(tail[0])
    ensures ParseSheetName(name) == ParseDecimal(tail[..DigitRun(tail)])
  {
    assert name[..7] == "Packet_" && name[7..] == tail;
    assert name[7] == tail[0];
    assert !IsDigit(name[0]);
    assert PacketAt(name, 0);
    ParseByMatch(name);
  }

  /** A name that does not start with a digit but starts with a match reads the digits after `Packet_`. */
  lemma ParseByMatch(name: string)
    requires |name| > 0 && !IsDigit(name[0]) && PacketAt(name, 0)
    ensures ParseSheetName(name) == ParseDecimal(name[7..][..DigitRun(name[7..])])
  {
  }

  /** Rule three: a name with neither form stands for type 1. */
  lemma DefaultRule(name: string)
    requires forall j: nat :: !PacketAt(name, j)
    requires !(0 < DigitRun(name) < |name| && name[DigitRun(name)] == '_')
    ensures ParseSheetName(name) == 1
  {
    PacketMatchSpec(name, 0);
  }

  /** A sheet written for a non-negative type reads back as that type, whatever the decoder named it. */
  lemma SheetNameRoundTrip(packetType: nat, naming: Naming)
    ensures ParseSheetName(SheetName(packetType, naming)) == packetType
  {
    var d := Decimal(packetType);
    DecimalRoundTrip(packetType);
    match naming {
      case NoNamer =>
        assert d + [] == d;
        PacketPrefixRule("Packet_" + d, d, []);
      case Named(n) =>
        assert d + "_" + n == d + ("_" + n);
        LeadingDigitsRule(d + "_" + n, d, n);
      case NameFailed =>
        assert "_Unknown" == "_" + "Unknown";
        LeadingDigitsRule(d + "_Unknown", d, "Unknown");
    }
  }

  /** Sheets written for types that all have rows parse back to their normalised rows. */
  lemma {:induction false} SheetsOfParse(types: seq<int>, buffers: map<int, seq<Frame>>, namer: int -> Naming)
    requires forall t | t in types :: t >= 0 && t in buffers && |buffers[t]| > 0
    ensures ParsedSheets(SheetsOf(types, buffers, namer)) == map t | t in types :: NormalizeRows(buffers[t], t)
  {
    if types != [] {
      var n := |types|;
      var t, init := types[n - 1], types[..n - 1];
      assert types == init + [t];
      var sheets := SheetsOf(types, buffers, namer);
      assert sheets[..n - 1] == SheetsOf(init, buffers, namer);
      assert forall x | x in init :: x in types;
      SheetsOfParse(init, buffers, namer);
      assert ParseSheetName(sheets[n - 1].name) == t by {
        assert t in types;
        SheetNameRoundTrip(t, namer(t));
      }
      assert ParsedSheets(sheets)
          == (map x | x in init :: NormalizeRows(buffers[x], x))[t := NormalizeRows(buffers[t], t)];
      assert t in types;
      MapSnoc(init, t, buffers);
    }
  }

  lemma MapSnoc(init: seq<int>, t: int, buffers: map<int, seq<Frame>>)
    requires t in buffers && forall x | x in init :: x in buffers
    ensures (map x | x in init :: NormalizeRows(buffers[x], x))[t := NormalizeRows(buffers[t], t)]
         == map x | x in init + [t] :: NormalizeRows(buffers[x], x)
  {
    assert forall x :: x in init + [t] <==> x in init || x == t;
  }


  /**
   * Exporting and importing again gives back every non-empty buffer, its
   * rows normalised, under its own type; empty buffers are not written.
   */
  lemma ExportImport(buffers: map<int, seq<Frame>>, namer: int -> Naming)
    requires forall t | t in buffers :: t >= 0
    ensures ParsedSheets(ExportSheets(buffers, namer))
         == map t | t in buffers && |buffers[t]| > 0 :: NormalizeRows(buffers[t], t)
  {
    var types := ExportTypes(buffers);
    ImportSheetsFor(types, buffers, namer);
  }

  lemma ImportSheetsFor(types: seq<int>, buffers: map<int, seq<Frame>>, namer: int -> Naming)
    requires forall t | t in buffers :: t >= 0
    requires forall t :: t in types <==> t in buffers && |buffers[t]| > 0
    ensures ParsedSheets(SheetsFor(types, buffers, namer))
         == map t | t in buffers && |buffers[t]| > 0 :: NormalizeRows(buffers[t], t)
  {
    var want := map t | t in buffers && |buffers[t]| > 0 :: NormalizeRows(buffers[t], t);
    if types == [] {
      assert ParsedSheets([NoDataSheet]) == map[] by {
        assert [NoDataSheet][..0] == [];
      }
      assert want == map[] by {
        forall t | t in buffers ensures |buffers[t]| == 0 {
          assert t !in types;
        }
      }
    } else {
      SheetsOfParse(types, buffers, namer);
      var got := map t | t in types :: NormalizeRows(buffers[t], t);
      assert got.Keys == want.Keys;
    }
  }

  /** The types that get a sheet: exactly those with rows, strictly ascending. */
  lemma ExportTypes(buffers: map<int, seq<Frame>>) returns (types: seq<int>)
    ensures types == NonEmpty(Ascending(buffers.Keys), buffers)
    ensures forall t :: t in types <==> t in buffers && |buffers[t]| > 0
    ensures Increasing(types)
  {
    types := NonEmpty(Ascending(buffers.Keys), buffers);
  }

  /**
   * The export writes the no-data sheet exactly when every buffer is empty;
   * otherwise one sheet per non-empty buffer, none of them empty, with
   * strictly ascending types.
   */
  lemma ExportSpec(buffers: map<int, seq<Frame>>, namer: int -> Naming)
    requires forall t | t in buffers :: t >= 0
    ensures var sheets := ExportSheets(buffers, namer);
      && |sheets| >= 1
      && (sheets == [NoDataSheet] <==> forall t | t in buffers :: |buffers[t]| == 0)
      && (sheets != [NoDataSheet] ==>
            && (forall i | 0 <= i < |sheets| :: |sheets[i].rows| > 0)
            && (forall i | 0 <= i < |sheets| :: var t := ParseSheetName(sheets[i].name);
                  t in buffers && sheets[i].rows == buffers[t])
            && (forall i, j | 0 <= i < j < |sheets| :: ParseSheetName(sheets[i].name) < ParseSheetName(sheets[j].name)))
  {
    var types := ExportTypes(buffers);
    SheetsForSpec(types, buffers, namer);
  }

  lemma SheetsForSpec(types: seq<int>, buffers: map<int, seq<Frame>>, namer: int -> Naming)
    requires forall t | t in buffers :: t >= 0
    requires forall t :: t in types <==> t in buffers && |buffers[t]| > 0
    requires Increasing(types)
    ensures var sheets := SheetsFor(types, buffers, namer);
      && |sheets| >= 1
      && (sheets == [NoDataSheet] <==> forall t | t in buffers :: |buffers[t]| == 0)
      && (sheets != [NoDataSheet] ==>
            && (forall i | 0 <= i < |sheets| :: |sheets[i].rows| > 0)
            && (forall i | 0 <= i < |sheets| :: var t := ParseSheetName(sheets[i].name);
                  t in buffers && sheets[i].rows == buffers[t])
            && (forall i, j | 0 <= i < j < |sheets| :: ParseSheetName(sheets[i].name) < ParseSheetName(sheets[j].name)))
  {
    var sheets := SheetsFor(types, buffers, namer);
    if types == [] {
      forall t | t in buffers ensures |buffers[t]| == 0 {
        assert t !in types;
      }
    } else {
      forall i | 0 <= i < |sheets| ensures ParseSheetName(sheets[i].name) == types[i] {
        assert types[i] in types;
        SheetNameRoundTrip(types[i], namer(types[i]));
      }
      assert sheets[0].rows != [];
      assert types[0] in types;
    }
  }

  /** A row that already has a usable `t` and a truthy `packet_type` is imported unchanged. */
  lemma CompleteRowKept(row: Frame, index: nat, packetType: int)
    requires HasTime(row) && "packet_type" in row && Truthy(row["packet_type"])
    ensures NormalizeRow(row, index, packetType) == row
  {
  }

  /**
   * An imported row keeps every other field; it always ends with a usable
   * `t` (its own, including 0, else the first truthy number of
   * `TimestampMS`, `timestamp`, `CurrentRaceTime`, else the row index) and
   * a `packet_type` (its own when truthy, else the sheet's type).
   */
  lemma NormalizeRowSpec(row: Frame, index: nat, packetType: int)
    ensures var r := NormalizeRow(row, index, packetType);
      && r.Keys == row.Keys + {"t", "packet_type"}
      && (forall k | k in row && k != "t" && k != "packet_type" :: r[k] == row[k])
      && HasTime(r)
      && (HasTime(row) ==> r["t"] == row["t"])
      && (!HasTime(row) && TruthyNumber(row, "TimestampMS") ==> r["t"] == row["TimestampMS"])
      && ((!HasTime(row) && !TruthyNumber(row, "TimestampMS") && TruthyNumber(row, "timestamp"))
            ==> r["t"] == row["timestamp"])
      && ((!HasTime(row) && !TruthyNumber(row, "TimestampMS") && !TruthyNumber(row, "timestamp")
           && TruthyNumber(row, "CurrentRaceTime"))
            ==> r["t"] == row["CurrentRaceTime"])
      && ((!HasTime(row) && !TruthyNumber(row, "TimestampMS") && !TruthyNumber(row, "timestamp")
           && !TruthyNumber(row, "CurrentRaceTime"))
            ==> r["t"] == Int(index))
      && ("packet_type" in row && Truthy(row["packet_type"]) ==> r["packet_type"] == row["packet_type"])
      && (!("packet_type" in row && Truthy(row["packet_type"])) ==> r["packet_type"] == Int(packetType))
  {
  }

  /** Importing an imported row again changes nothing. */
  lemma NormalizeIdempotent(row: Frame, i: nat, j: nat, packetType: int)
    ensures NormalizeRow(NormalizeRow(row, i, packetType), j, packetType) == NormalizeRow(row, i, packetType)
  {
    NormalizeRowSpec(row, i, packetType);
  }

  /** Importing an export of complete frames gives back exactly the non-empty buffers. */
  lemma ExportImportComplete(buffers: map<int, seq<Frame>>, namer: int -> Naming)
    requires forall t | t in buffers :: t >= 0
    requires forall t | t in buffers :: AllComplete(buffers[t])
    ensures ParsedSheets(ExportSheets(buffers, namer)) == map t | t in buffers && |buffers[t]| > 0 :: buffers[t]
  {
    ExportImport(buffers, namer);
    CompleteBuffersKept(buffers);
  }

  lemma CompleteBuffersKept(buffers: map<int, seq<Frame>>)
    requires forall t | t in buffers :: AllComplete(buffers[t])
    ensures (map t | t in buffers && |buffers[t]| > 0 :: NormalizeRows(buffers[t], t))
         == map t | t in buffers && |buffers[t]| > 0 :: buffers[t]
  {
    forall t | t in buffers && |buffers[t]| > 0 ensures NormalizeRows(buffers[t], t) == buffers[t] {
      CompleteRowsKept(buffers[t], t);
    }
  }

  /** Every row has a usable `t` and a truthy `packet_type`. */
  predicate AllComplete(rows: seq<Frame>)
  {
    forall i | 0 <= i < |rows| :: HasTime(rows[i]) && "packet_type" in rows[i] && Truthy(rows[i]["packet_type"])
  }

  lemma CompleteRowsKept(rows: seq<Frame>, packetType: int)
    requires AllComplete(rows)
    ensures NormalizeRows(rows, packetType) == rows
  {
    forall i | 0 <= i < |rows| ensures NormalizeRow(rows[i], i, packetType) == rows[i] {
      CompleteRowKept(rows[i], i, packetType);
    }
  }


  // ---------------------------------------------------------------------
  // The legacy CSV import

  /** `split` on one character: the pieces between separators, at least one. */
  function Split(s: string, sep: char): (r: seq<string>)
    ensures |r| >= 1
    decreases |s|
  {
    if s == [] then [""]
    else
      var rest := Split(s[1..], sep);
      if s[0] == sep then [""] + rest else [[s[0]] + rest[0]] + rest[1..]
  }

  /** The pieces put back together with the separator between them (the partner of `Split`). */
  function Join(parts: seq<string>, sep: char): string
    requires |parts| >= 1
  {
    if |parts| == 1 then parts[0] else parts[0] + [sep] + Join(parts[1..], sep)
  }

  /** The characters `String.prototype.trim` removes: white space and line terminators. */
  predicate IsSpace(c: char)
  {
    var n := c as int;
    n == 0x09 || n == 0x0A || n == 0x0B || n == 0x0C || n == 0x0D || n == 0x20 || n == 0xA0
    || n == 0x1680 || (0x2000 <= n <= 0x200A) || n == 0x2028 || n == 0x2029 || n == 0x202F
    || n == 0x205F || n == 0x3000 || n == 0xFEFF
  }

  /** The number of white-space characters that start `s`. */
  function SpacesBefore(s: string): (n: nat)
    ensures n <= |s|
    ensures forall i | 0 <= i < n :: IsSpace(s[i])
    ensures n < |s| ==> !IsSpace(s[n])
  {
    if s != [] && IsSpace(s[0]) then
      var n := 1 + SpacesBefore(s[1..]);
      assert forall i | 1 <= i < n :: s[i] == s[1..][i - 1];
      n
    else 0
  }

  /** The number of white-space characters that end `s`. */
  function SpacesAfter(s: string): (n: nat)
    ensures n <= |s|
    ensures forall i | |s| - n <= i < |s| :: IsSpace(s[i])
    ensures n < |s| ==> !IsSpace(s[|s| - n - 1])
  {
    if s != [] && IsSpace(s[|s| - 1]) then
      var n := 1 + SpacesAfter(s[..|s| - 1]);
      assert forall i | |s| - n <= i < |s| - 1 :: s[i] == s[..|s| - 1][i];
      n
    else 0
  }

  /** `trim()`: white space removed from both ends. */
  function Trim(s: string): string
  {
    var a, b := SpacesBefore(s), SpacesAfter(s);
    if a == |s| then []
    else
      assert !IsSpace(s[a]);
      assert b <= |s| - a;
      s[a..|s| - b]
  }

  /** `replace(/^"|"$/g, '')`: a leading quote goes, and a trailing quote that is not that same character. */
  function StripQuotes(s: string): string
  {
    var a := if |s| > 0 && s[0] == '"' then 1 else 0;
    var b := if |s| > a && s[|s| - 1] == '"' then |s| - 1 else |s|;
    s[a..b]
  }

  /**
   * A cell: quotes stripped and trimmed, then a number when `Number()` reads
   * one (`numeric` stands for `Number()` with its NaN test), else the text.
   */
  function CellValue(raw: string, numeric: string -> Option<real>): Value
  {
    var clean := Trim(StripQuotes(raw));
    var n := numeric(clean);
    if n.Some? then Num(n.value) else Str(clean)
  }

  /** The value for header `j`: its cell, or the empty string when the line is short. */
  function Cell(values: seq<string>, j: nat, numeric: string -> Option<real>): Value
  {
    if j < |values| then CellValue(values[j], numeric) else Str("")
  }

  /** The fields a CSV line gives, header by header; a later duplicate header wins. */
  function Cells(headers: seq<string>, values: seq<string>, numeric: string -> Option<real>): Frame
  {
    if headers == [] then map[]
    else
      var n := |headers| - 1;
      Cells(headers[..n], values, numeric)[headers[n] := Cell(values, n, numeric)]
  }

  /** The time a CSV row falls back on: `TimestampMS`, then `timestamp`, else its index. */
  function CsvTime(f: Frame, index: nat): Value
  {
    if TruthyNumber(f, "TimestampMS") then f["TimestampMS"]
    else if TruthyNumber(f, "timestamp") then f["timestamp"]
    else Int(index)
  }

  /** The frame of one CSV data line: its cells, a `t`, and the given packet type. */
  function CsvFrame(headers: seq<string>, line: string, index: nat, packetType: int,
                    numeric: string -> Option<real>): Frame
  {
    var f := Cells(headers, Split(line, ','), numeric);
    var g := if HasTime(f) then f else f["t" := CsvTime(f, index)];
    g["packet_type" := Int(packetType)]
  }

  predicate Blank(line: string)
  {
    Trim(line) == []
  }

  /** The lines that are not blank, in order. */
  function DataLines(lines: seq<string>): (r: seq<string>)
    ensures |r| <= |lines|
    ensures forall x :: x in r <==> x in lines && !Blank(x)
  {
    if lines == [] then []
    else
      var rest := DataLines(lines[1..]);
      assert forall x :: x in lines <==> x == lines[0] || x in lines[1..];
      if Blank(lines[0]) then rest else [lines[0]] + rest
  }

  function TrimAll(xs: seq<string>): seq<string>
  {
    seq(|xs|, i requires 0 <= i < |xs| => Trim(xs[i]))
  }

  const TooShort := "CSV file must contain at least a header row and one data row"

  /**
   * `convertCSVToFrames`: the first line gives the trimmed headers, every
   * later non-blank line a frame; a text without a line break is refused.
   */
  function ConvertCSV(csvText: string, packetType: int, numeric: string -> Option<real>): Result<seq<Frame>>
  {
    var lines := Split(csvText, '\n');
    if |lines| < 2 then Err(TooShort)
    else
      var headers := TrimAll(Split(lines[0], ','));
      var data := DataLines(lines[1..]);
      Ok(CsvFrames(headers, data, packetType, numeric))
  }

  /** One frame per data line, numbered by its place among the data lines. */
  function CsvFrames(headers: seq<string>, data: seq<string>, packetType: int,
                     numeric: string -> Option<real>): seq<Frame>
  {
    seq(|data|, i requires 0 <= i < |data| => CsvFrame(headers, data[i], i, packetType, numeric))
  }

  /** The header loop of `convertCSVToFrames`: one field per header, from the cell in the same column. */
  method HeaderFields(headers: seq<string>, values: seq<string>, numeric: string -> Option<real>)
    returns (frame: Frame)
    ensures frame == Cells(headers, values, numeric)
  {
    frame := map[];
    for headerIndex := 0 to |headers|
      invariant frame == Cells(headers[..headerIndex], values, numeric)
    {
      assert headers[..headerIndex + 1][..headerIndex] == headers[..headerIndex];
      if headerIndex < |values| {
        var cleanValue := Trim(StripQuotes(values[headerIndex]));
        var n := numeric(cleanValue);
        frame := frame[headers[headerIndex] := if n.Some? then Num(n.value) else Str(cleanValue)];
      } else {
        frame := frame[headers[headerIndex] := Str("")];
      }
    }
    assert headers[..|headers|] == headers;
  }

  /** `convertCSVToFrames`, line by line. */
  method ConvertCSVToFrames(csvText: string, packetType: int, numeric: string -> Option<real>)
    returns (r: Result<seq<Frame>>)
    ensures r == ConvertCSV(csvText, packetType, numeric)
  {
    var lines := Split(csvText, '\n');
    if |lines| < 2 {
      return Err(TooShort);
    }
    var headers := TrimAll(Split(lines[0], ','));
    var frames := LinesToFrames(headers, DataLines(lines[1..]), packetType, numeric);
    r := Ok(frames);
  }

  /** The row `map` of `convertCSVToFrames` over the data lines. */
  method LinesToFrames(headers: seq<string>, data: seq<string>, packetType: int,
                       numeric: string -> Option<real>) returns (frames: seq<Frame>)
    ensures frames == CsvFrames(headers, data, packetType, numeric)
  {
    ghost var expected := CsvFrames(headers, data, packetType, numeric);
    frames := [];
    for index := 0 to |data|
      invariant frames == expected[..index]
    {
      var frame := LineToFrame(headers, data[index], index, packetType, numeric);
      assert expected[index] == frame;
      assert expected[..index + 1] == expected[..index] + [frame];
      frames := frames + [frame];
    }
    assert frames == expected;
  }

  /** The body of the row `map` in `convertCSVToFrames`. */
  method LineToFrame(headers: seq<string>, line: string, index: nat, packetType: int,
                     numeric: string -> Option<real>) returns (frame: Frame)
    ensures frame == CsvFrame(headers, line, index, packetType, numeric)
  {
    frame := HeaderFields(headers, Split(line, ','), numeric);
    if !("t" in frame && Truthy(frame["t"])) && !("t" in frame && IsNumber(frame["t"])) {
      if TruthyNumber(frame, "TimestampMS") {
        frame := frame["t" := frame["TimestampMS"]];
      } else if TruthyNumber(frame, "timestamp") {
        frame := frame["t" := frame["timestamp"]];
      } else {
        frame := frame["t" := Int(index)];
      }
    }
    frame := frame["packet_type" := Int(packetType)];
  }

  // ---------------------------------------------------------------------
  // Properties of the CSV import

  lemma {:induction false} SplitJoin(s: string, sep: char)
    ensures Join(Split(s, sep), sep) == s
    ensures forall i | 0 <= i < |Split(s, sep)| :: sep !in Split(s, sep)[i]
    decreases |s|
  {
    if s != [] {
      var rest := Split(s[1..], sep);
      SplitJoin(s[1..], sep);
      if s[0] == sep {
        assert Split(s, sep) == [""] + rest;
        assert ([""] + rest)[1..] == rest;
        assert s == [sep] + s[1..];
      } else {
        var r := Split(s, sep);
        assert r == [[s[0]] + rest[0]] + rest[1..];
        assert r[1..] == rest[1..];
        forall i | 0 <= i < |r| ensures sep !in r[i] {
          if i > 0 {
            assert r[i] == rest[i];
          }
        }
        if |rest| == 1 {
          assert s == [s[0]] + s[1..];
        } else {
          assert Join(rest, sep) == rest[0] + [sep] + Join(rest[1..], sep);
          assert s == [s[0]] + s[1..];
        }
      }
    }
  }

  lemma {:induction false} SplitPrefix(p: string, t: string, sep: char)
    requires sep !in p
    ensures Split(p + t, sep) == [p + Split(t, sep)[0]] + Split(t, sep)[1..]
  {
    var st := Split(t, sep);
    if p != [] {
      var tail := p[1..] + t;
      assert p + t == [p[0]] + tail;
      assert p[0] != sep;
      SplitCons(p[0], tail, sep);
      SplitPrefix(p[1..], t, sep);
      assert [p[0]] + (p[1..] + st[0]) == p + st[0];
    } else {
      assert p + t == t && p + st[0] == st[0];
      assert st == [st[0]] + st[1..];
    }
  }

  lemma SplitCons(c: char, s: string, sep: char)
    requires c != sep
    ensures Split([c] + s, sep) == [[c] + Split(s, sep)[0]] + Split(s, sep)[1..]
  {
    assert ([c] + s)[1..] == s;
  }


  /** Pieces without the separator split back out of their join. */
  lemma {:induction false} JoinSplit(parts: seq<string>, sep: char)
    requires |parts| >= 1
    requires forall i | 0 <= i < |parts| :: sep !in parts[i]
    ensures Split(Join(parts, sep), sep) == parts
  {
    if |parts| == 1 {
      SplitPrefix(parts[0], "", sep);
      assert parts[0] + "" == parts[0];
    } else {
      var rest := Join(parts[1..], sep);
      JoinSplit(parts[1..], sep);
      assert ([sep] + rest)[1..] == rest;
      assert Split([sep] + rest, sep) == [""] + parts[1..];
      assert Join(parts, sep) == parts[0] + ([sep] + rest);
      SplitPrefix(parts[0], [sep] + rest, sep);
      assert parts[0] + "" == parts[0];
    }
  }

  /** A split has a second piece exactly when the separator occurs. */
  lemma {:induction false} SplitTwo(s: string, sep: char)
    ensures |Split(s, sep)| >= 2 <==> sep in s
    decreases |s|
  {
    if s != [] {
      SplitTwo(s[1..], sep);
      assert sep in s <==> s[0] == sep || sep in s[1..] by {
        assert s == [s[0]] + s[1..];
      }
    }
  }

  /**
   * `trim` leaves a string that is empty exactly when the input is all white
   * space, that neither starts nor ends with white space, and that a second
   * trim leaves alone.
   */
  lemma TrimSpec(s: string)
    ensures var r := Trim(s);
      && (r == [] <==> forall i | 0 <= i < |s| :: IsSpace(s[i]))
      && (r != [] ==> !IsSpace(r[0]) && !IsSpace(r[|r| - 1]))
      && Trim(r) == r
  {
    var r := Trim(s);
    var a, b := SpacesBefore(s), SpacesAfter(s);
    if a < |s| {
      assert !IsSpace(s[a]) && r[0] == s[a];
      assert !IsSpace(s[|s| - b - 1]) && r[|r| - 1] == s[|s| - b - 1];
      assert SpacesBefore(r) == 0 && SpacesAfter(r) == 0;
      assert r[0..|r|] == r;
    }
  }

  /** Quotes around a cell go; a cell with no quote at either end is left alone. */
  lemma StripQuotesSpec(x: string)
    ensures StripQuotes("\"" + x + "\"") == x
    ensures (x == [] || (x[0] != '"' && x[|x| - 1] != '"')) ==> StripQuotes(x) == x
  {
    var q := "\"" + x + "\"";
    assert q[1..|q| - 1] == x;
    assert x[0..|x|] == x;
  }

  /** The fields of a line: one per header, each from the last column with that header. */
  lemma {:induction false} CellsSpec(headers: seq<string>, values: seq<string>, numeric: string -> Option<real>)
    ensures var f := Cells(headers, values, numeric);
      && (forall h :: h in f <==> h in headers)
      && forall j | 0 <= j < |headers| && headers[j] !in headers[j + 1..] :: f[headers[j]] == Cell(values, j, numeric)
  {
    if headers != [] {
      var n := |headers| - 1;
      var prefix := headers[..n];
      CellsSpec(prefix, values, numeric);
      assert forall h :: h in headers <==> h in prefix || h == headers[n] by {
        assert headers == prefix + [headers[n]];
      }
      forall j | 0 <= j < |headers| && headers[j] !in headers[j + 1..]
        ensures Cells(headers, values, numeric)[headers[j]] == Cell(values, j, numeric)
      {
        if j < n {
          assert headers[n] in headers[j + 1..];
          assert prefix[j + 1..] == headers[j + 1..n];
          assert prefix[j] == headers[j];
        }
      }
    }
  }

  /**
   * A CSV frame has a field for every header, the cell of the header's last
   * column for each other than `t` and `packet_type`, a usable `t` (the
   * `t` column when truthy or a number, else `TimestampMS`, else
   * `timestamp`, else the row index) and the given packet type.
   */
  lemma CsvFrameSpec(headers: seq<string>, line: string, index: nat, packetType: int,
                     numeric: string -> Option<real>)
    ensures var f, cells := CsvFrame(headers, line, index, packetType, numeric), Cells(headers, Split(line, ','), numeric);
      && (forall h :: h in f <==> h in headers || h == "t" || h == "packet_type")
      && f["packet_type"] == Int(packetType)
      && HasTime(f)
      && (forall j | 0 <= j < |headers| && headers[j] !in headers[j + 1..] && headers[j] != "t" && headers[j] != "packet_type" ::
            f[headers[j]] == Cell(Split(line, ','), j, numeric))
      && (HasTime(cells) ==> f["t"] == cells["t"])
      && ((!HasTime(cells) && TruthyNumber(cells, "TimestampMS")) ==> f["t"] == cells["TimestampMS"])
      && ((!HasTime(cells) && !TruthyNumber(cells, "TimestampMS") && TruthyNumber(cells, "timestamp"))
            ==> f["t"] == cells["timestamp"])
      && ((!HasTime(cells) && !TruthyNumber(cells, "TimestampMS") && !TruthyNumber(cells, "timestamp"))
            ==> f["t"] == Int(index))
  {
    CellsSpec(headers, Split(line, ','), numeric);
  }

  /**
   * The CSV import fails exactly when the text has no line break; otherwise
   * it gives one frame per non-blank line after the first, each with every
   * header, a usable `t` and the given packet type.
   */
  lemma ConvertCSVSpec(csvText: string, packetType: int, numeric: string -> Option<real>)
    ensures var r := ConvertCSV(csvText, packetType, numeric);
      && (r.Err? <==> '\n' !in csvText)
      && (r.Err? ==> r.error == TooShort)
      && (r.Ok? ==> var lines := Split(csvText, '\n');
            && |r.value| == |DataLines(lines[1..])|
            && forall i | 0 <= i < |r.value| ::
                 && r.value[i]["packet_type"] == Int(packetType)
                 && HasTime(r.value[i])
                 && forall h | h in Split(lines[0], ',') :: Trim(h) in r.value[i])
  {
    SplitTwo(csvText, '\n');
    var r := ConvertCSV(csvText, packetType, numeric);
    if r.Ok? {
      var lines := Split(csvText, '\n');
      var headers := TrimAll(Split(lines[0], ','));
      var data := DataLines(lines[1..]);
      forall i | 0 <= i < |r.value|
        ensures r.value[i]["packet_type"] == Int(packetType) && HasTime(r.value[i])
        ensures forall h | h in Split(lines[0], ',') :: Trim(h) in r.value[i]
      {
        CsvFrameSpec(headers, data[i], i, packetType, numeric);
        forall h | h in Split(lines[0], ',') ensures Trim(h) in headers {
          var k :| 0 <= k < |Split(lines[0], ',')| && Split(lines[0], ',')[k] == h;
          assert headers[k] == Trim(h);
        }
      }
    }
  }

  // ---------------------------------------------------------------------
  // The export file name

  /** The local date and time of the export; `month` counts from 1 as `getMonth() + 1` does. */
  datatype Clock = Clock(year: int, month: nat, day: nat, hours: nat, minutes: nat, seconds: nat)

  /** `String(n).padStart(2, '0')`. */
  function Pad2(n: nat): string
  {
    if n < 10 then "0" + Decimal(n) else Decimal(n)
  }

  /**
   * What `toLowerCase()` followed by removing everything outside `[a-z0-9]`
   * keeps of one character: ASCII letters lowered, digits, and the two
   * non-ASCII characters whose lower case is ASCII (dotted capital I, whose
   * combining dot is then removed, and the Kelvin sign).
   */
  function CleanChar(c: char): string
  {
    if 'a' <= c <= 'z' || '0' <= c <= '9' then [c]
    else if 'A' <= c <= 'Z' then [(c as int + 32) as char]
    else if c as int == 0x130 then "i"
    else if c as int == 0x212A then "k"
    else []
  }

  function CleanName(s: string): string
  {
    if s == [] then [] else CleanName(s[..|s| - 1]) + CleanChar(s[|s| - 1])
  }

  /** The game part of the name: "unknown" without a name, else the cleaned name. */
  function GameSegment(gameName: Option<string>): string
  {
    if gameName.None? || gameName.value == [] then "unknown" else CleanName(gameName.value)
  }

  /** `generateTimestampedFilename`, with the clock as a parameter. */
  function Filename(gameName: Option<string>, c: Clock): string
  {
    "telemetry-" + GameSegment(gameName) + "-" + Stamp(c) + ".xlsx"
  }

  /** The local date and time as `YYYYMMDD-HHMMSS`. */
  function Stamp(c: Clock): string
  {
    IntString(c.year) + Pad2(c.month) + Pad2(c.day) + "-" + Pad2(c.hours) + Pad2(c.minutes) + Pad2(c.seconds)
  }

  // ---------------------------------------------------------------------
  // Properties of the file name

  predicate LowerAlnum(c: char)
  {
    'a' <= c <= 'z' || '0' <= c <= '9'
  }

  /** What is kept of a character is a lower-case letter or a digit. */
  lemma CleanCharSpec(c: char)
    ensures forall i | 0 <= i < |CleanChar(c)| :: LowerAlnum(CleanChar(c)[i])
    ensures LowerAlnum(c) ==> CleanChar(c) == [c]
  {
  }

  /** The cleaned name holds only lower-case letters and digits. */
  lemma {:induction false} CleanNameSpec(s: string)
    ensures forall i | 0 <= i < |CleanName(s)| :: LowerAlnum(CleanName(s)[i])
  {
    if s != [] {
      var n := |s| - 1;
      var a, b := CleanName(s[..n]), CleanChar(s[n]);
      CleanNameSpec(s[..n]);
      CleanCharSpec(s[n]);
      AllLowerAppend(a, b);
    }
  }

  lemma AllLowerAppend(a: string, b: string)
    requires forall i | 0 <= i < |a| :: LowerAlnum(a[i])
    requires forall i | 0 <= i < |b| :: LowerAlnum(b[i])
    ensures forall i | 0 <= i < |a + b| :: LowerAlnum((a + b)[i])
  {
    forall i | 0 <= i < |a + b| ensures LowerAlnum((a + b)[i]) {
      if i < |a| {
        assert (a + b)[i] == a[i];
      } else {
        assert (a + b)[i] == b[i - |a|];
      }
    }
  }

  /** A name made of lower-case letters and digits is kept as it is. */
  lemma {:induction false} CleanNameKeeps(s: string)
    requires forall i | 0 <= i < |s| :: LowerAlnum(s[i])
    ensures CleanName(s) == s
  {
    if s != [] {
      var n := |s| - 1;
      CleanNameKeeps(s[..n]);
      CleanCharSpec(s[n]);
      assert s == s[..n] + [s[n]];
    }
  }

  /** A two-digit field reads back as its number. */
  lemma Pad2Spec(n: nat)
    requires n < 100
    ensures |Pad2(n)| == 2 && DecimalOf(Pad2(n), n)
  {
    DecimalRoundTrip(n);
    if n < 10 {
      assert Pad2(n)[..1] == "0";
    } else {
      assert Decimal(n) == Decimal(n / 10) + [DigitChar(n % 10)];
    }
  }

  /** A four-digit year renders in four digits. */
  lemma YearSpec(year: int)
    requires 1000 <= year <= 9999
    ensures |IntString(year)| == 4 && DecimalOf(IntString(year), year)
  {
    DecimalRoundTrip(year);
    var y1 := year / 10;
    var y2 := y1 / 10;
    var y3 := y2 / 10;
    assert 100 <= y1 && 10 <= y2 && 1 <= y3 < 10;
    assert |Decimal(y2)| == 2 by {
      assert Decimal(y2) == Decimal(y3) + [DigitChar(y2 % 10)];
    }
    assert |Decimal(y1)| == 3 by {
      assert Decimal(y1) == Decimal(y2) + [DigitChar(y1 % 10)];
    }
    assert Decimal(year) == Decimal(y1) + [DigitChar(year % 10)];
  }

  /** The date and time part holds each field, zero-padded, at a fixed place. */
  lemma StampFields(c: Clock)
    requires 1000 <= c.year <= 9999
    requires c.month < 100 && c.day < 100 && c.hours < 100 && c.minutes < 100 && c.seconds < 100
    ensures var d := Stamp(c);
      && |d| == 15 && d[8] == '-'
      && DecimalOf(d[..4], c.year) && DecimalOf(d[4..6], c.month) && DecimalOf(d[6..8], c.day)
      && DecimalOf(d[9..11], c.hours) && DecimalOf(d[11..13], c.minutes) && DecimalOf(d[13..], c.seconds)
  {
    YearSpec(c.year);
    Pad2Spec(c.month);
    Pad2Spec(c.day);
    Pad2Spec(c.hours);
    Pad2Spec(c.minutes);
    Pad2Spec(c.seconds);
    var d := Stamp(c);
    assert d[..4] == IntString(c.year);
    assert d[4..6] == Pad2(c.month);
    assert d[6..8] == Pad2(c.day);
    assert d[9..11] == Pad2(c.hours);
    assert d[11..13] == Pad2(c.minutes);
    assert d[13..] == Pad2(c.seconds);
  }

  /**
   * The export name is `telemetry-<game>-<yyyymmdd>-<hhmmss>.xlsx`: the game
   * part holds only lower-case letters and digits (so the dashes delimit
   * it), and every date and time field reads back from its place.
   */
  lemma FilenameSpec(gameName: Option<string>, c: Clock)
    requires 1000 <= c.year <= 9999
    requires c.month < 100 && c.day < 100 && c.hours < 100 && c.minutes < 100 && c.seconds < 100
    ensures var r, g := Filename(gameName, c), GameSegment(gameName);
      && (gameName.None? || gameName == Some("") ==> g == "unknown")
      && (forall i | 0 <= i < |g| :: LowerAlnum(g[i]))
      && |r| == |g| + 31
      && r[..10] == "telemetry-" && r[10..|g| + 10] == g && r[|g| + 10] == '-'
      && r[|g| + 11..|g| + 26] == Stamp(c)
      && r[|g| + 26..] == ".xlsx"
  {
    var g, st := GameSegment(gameName), Stamp(c);
    assert forall i | 0 <= i < |g| :: LowerAlnum(g[i]) by {
      if gameName.Some? && gameName.value != [] {
        CleanNameSpec(gameName.value);
      } else {
        UnknownLower();
      }
    }
    assert |st| == 15 by {
      StampFields(c);
    }
    Parts("telemetry-", g, "-", st, ".xlsx");
  }

  lemma UnknownLower()
    ensures forall i | 0 <= i < |"unknown"| :: LowerAlnum("unknown"[i])
  {
    var u := "unknown";
    assert u == ['u', 'n', 'k', 'n', 'o', 'w', 'n'];
    forall i | 0 <= i < |u| ensures LowerAlnum(u[i]) {
      assert u[i] in "unknow";
    }
  }

  /** Where each of five joined strings sits in the result. */
  lemma Parts(a: string, b: string, c: string, d: string, e: string)
    ensures var r, i, j, k, l := a + b + c + d + e, |a|, |a| + |b|, |a| + |b| + |c|, |a| + |b| + |c| + |d|;
      && |r| == l + |e|
      && r[..i] == a && r[i..j] == b && r[j..k] == c && r[k..l] == d && r[l..] == e
  {
  }
}
