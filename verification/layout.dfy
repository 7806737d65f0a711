/**
 * Fixed record layouts and the cursor that walks them.
 *
 * Every decoder reads a record field by field with a moving `offset`: a
 * scalar read advances it by the scalar's width, a skipped byte advances it
 * without a read, and a fixed-count loop reads an array of scalars or of
 * small sub-records. A `Layout` lists those steps in wire order; `ReadFrom`
 * says what the walk produces and `ReadLayout` is the walk itself.
 */
module Layout {
  import opened Wire
  import opened Frames

  /** The scalar reads used by the decoders (all little-endian). */
  datatype Scalar =
    | U8 | I8 | U16 | I16 | U32 | I32 | F32 | F64
    | Norm16                 // a signed 16-bit value divided by 32767
    | Latin1(len: nat)       // `len` bytes, one character per byte
    | Latin1Trim(len: nat)   // the same with trailing NULs removed
    | Wide(maxLength: nat)   // a bounded UTF-16 string that never fails

  function ScalarWidth(s: Scalar): nat
  {
    match s
    case U8 => 1
    case I8 => 1
    case U16 => 2
    case I16 => 2
    case U32 => 4
    case I32 => 4
    case F32 => 4
    case F64 => 8
    case Norm16 => 2
    case Latin1(n) => n
    case Latin1Trim(n) => n
    case Wide(n) => 2 * n
  }

  /** A read that throws past the end of the buffer (all but the wide string). */
  predicate Checked(s: Scalar)
  {
    !s.Wide?
  }

  /** The value of a fixed-width scalar, from exactly its bytes. */
  function ScalarValue(bytes: seq<byte>, s: Scalar): Value
    requires !s.Wide? && |bytes| == ScalarWidth(s)
  {
    LittleEndianBound(bytes);
    var u := LittleEndian(bytes);
    match s
    case U8 => Int(u)
    case U16 => Int(u)
    case U32 => Int(u)
    case I8 => Int(Signed(u, 1))
    case I16 => Int(Signed(u, 2))
    case I32 => Int(Signed(u, 4))
    case F32 => Bits32(u)
    case F64 => Bits64(u)
    case Norm16 => Num(Signed(u, 2) as real / 32767.0)
    case Latin1(_) => Str(Wire.Latin1(bytes))
    case Latin1Trim(_) => Str(TrimNuls(Wire.Latin1(bytes)))
  }

  /**
   * One scalar at `pos`; `None` is the RangeError of a read past the end. A
   * wide string never fails: its reader turns a failed read into ''.
   */
  function ReadScalar(buf: seq<byte>, pos: nat, s: Scalar): (r: Option<Value>)
    ensures r.Some? <==> (!Checked(s) || pos + ScalarWidth(s) <= |buf|)
  {
    if s.Wide? then Some(Units(WideString(buf, pos, s.maxLength)))
    else if pos + ScalarWidth(s) <= |buf| then Some(ScalarValue(buf[pos..pos + ScalarWidth(s)], s))
    else None
  }

  /** A column of a fixed-size sub-record read in a loop. */
  datatype Col = Col(name: string, s: Scalar)

  function RowWidth(cols: seq<Col>): nat
  {
    if cols == [] then 0 else ScalarWidth(cols[0].s) + RowWidth(cols[1..])
  }

  /** The value of one column, from exactly its bytes. */
  function ColumnValue(bytes: seq<byte>, s: Scalar): Value
    requires |bytes| == ScalarWidth(s)
  {
    if s.Wide? then Units(WideString(bytes, 0, s.maxLength)) else ScalarValue(bytes, s)
  }

  /** A sub-record from exactly its bytes: each column from its own slice, in order. */
  function DecodeRow(bytes: seq<byte>, cols: seq<Col>, acc: map<string, Value>): map<string, Value>
    requires |bytes| == RowWidth(cols)
    decreases |cols|
  {
    if cols == [] then acc
    else
      var w := ScalarWidth(cols[0].s);
      DecodeRow(bytes[w..], cols[1..], acc[cols[0].name := ColumnValue(bytes[..w], cols[0].s)])
  }

  /**
   * One sub-record, an object literal of fixed-width reads: it throws exactly
   * when the record runs past the end of the buffer (`RowByColumns` relates
   * this to reading the columns one at a time).
   */
  function ReadRow(buf: seq<byte>, pos: nat, cols: seq<Col>, acc: map<string, Value>): Option<map<string, Value>>
  {
    if cols == [] then Some(acc)
    else if pos + RowWidth(cols) <= |buf| then Some(DecodeRow(buf[pos..pos + RowWidth(cols)], cols, acc))
    else None
  }

  /** Reading the columns of a record one after another, each read checked on its own. */
  function ReadColumns(buf: seq<byte>, pos: nat, cols: seq<Col>, acc: map<string, Value>): Option<map<string, Value>>
    decreases |cols|
  {
    if cols == [] then Some(acc)
    else
      var v := ReadScalar(buf, pos, cols[0].s);
      if v.None? then None else ReadColumns(buf, pos + ScalarWidth(cols[0].s), cols[1..], acc[cols[0].name := v.value])
  }

  predicate AllChecked(cols: seq<Col>)
  {
    forall i | 0 <= i < |cols| :: Checked(cols[i].s)
  }


  /**
   * The push loop over an array of scalars: `count` reads one after another,
   * each value pushed onto `acc`; the first failing read abandons the array.
   */
  function ReadMany(buf: seq<byte>, pos: nat, count: nat, s: Scalar, acc: seq<Value>): Option<seq<Value>>
    decreases count
  {
    if count == 0 then Some(acc)
    else
      var x := ReadScalar(buf, pos, s);
      if x.None? then None else ReadMany(buf, pos + ScalarWidth(s), count - 1, s, acc + [x.value])
  }

  /** The push loop over an array of sub-records, each an object of its columns. */
  function ReadRows(buf: seq<byte>, pos: nat, count: nat, cols: seq<Col>, acc: seq<Value>): Option<seq<Value>>
    decreases count
  {
    if count == 0 then Some(acc)
    else
      var row := ReadRow(buf, pos, cols, map[]);
      if row.None? then None else ReadRows(buf, pos + RowWidth(cols), count - 1, cols, acc + [Obj(row.value)])
  }

  /** What one named field of a frame holds. */
  datatype Kind =
    | One(s: Scalar)                    // a single scalar
    | Const(v: Value)                   // a literal, no bytes read
    | Many(count: nat, elem: Scalar)    // an array of scalars
    | Table(rows: nat, cols: seq<Col>)  // an array of sub-records

  function KindWidth(k: Kind): nat
  {
    match k
    case One(s) => ScalarWidth(s)
    case Const(_) => 0
    case Many(c, s) => c * ScalarWidth(s)
    case Table(c, cols) => c * RowWidth(cols)
  }

  function ReadKind(buf: seq<byte>, pos: nat, k: Kind): Option<Value>
  {
    match k
    case One(s) => ReadScalar(buf, pos, s)
    case Const(v) => Some(v)
    case Many(c, s) =>
      var xs := ReadMany(buf, pos, c, s, []);
      if xs.None? then None else Some(List(xs.value))
    case Table(c, cols) =>
      var xs := ReadRows(buf, pos, c, cols, []);
      if xs.None? then None else Some(List(xs.value))
  }

  /** One step of the cursor: a named field, or bytes skipped without a read. */
  datatype Field = Field(name: string, kind: Kind) | Gap(n: nat)

  type Layout = seq<Field>

  function FieldWidth(f: Field): nat
  {
    match f
    case Field(_, k) => KindWidth(k)
    case Gap(n) => n
  }

  /** The number of bytes the cursor advances over the whole layout. */
  function Width(l: Layout): nat
  {
    if l == [] then 0 else FieldWidth(l[0]) + Width(l[1..])
  }

  /**
   * Walking `l` from `pos`, adding each field to `acc` as it is read (a later
   * field of the same name replaces an earlier one, as in an object literal).
   * `None` when some read throws.
   */
  function ReadFrom(buf: seq<byte>, pos: nat, l: Layout, acc: Frame): Option<Frame>
    decreases |l|
  {
    if l == [] then Some(acc)
    else if l[0].Gap? then ReadFrom(buf, pos + l[0].n, l[1..], acc)
    else
      var v := ReadKind(buf, pos, l[0].kind);
      if v.None? then None else ReadFrom(buf, pos + KindWidth(l[0].kind), l[1..], acc[l[0].name := v.value])
  }

  // ---------------------------------------------------------------------
  // Names

  predicate Writes(f: Field, n: string)
  {
    f.Field? && f.name == n
  }

  /** No field of `l` is named `n`. */
  predicate NotNamed(l: Layout, n: string)
  {
    forall i | 0 <= i < |l| :: !Writes(l[i], n)
  }

  /** No field of `l` has a name in `keys` (the frame keys set before the walk). */
  predicate Keeps(l: Layout, keys: set<string>)
  {
    forall i | 0 <= i < |l| :: l[i].Field? ==> l[i].name !in keys
  }

  /** The names the walk writes. */
  function Names(l: Layout): set<string>
  {
    if l == [] then {} else (if l[0].Field? then {l[0].name} else {}) + Names(l[1..])
  }

  // ---------------------------------------------------------------------
  // Strictness: the last step of the layout is a read that throws past the end

  predicate StrictKind(k: Kind)
  {
    match k
    case One(s) => Checked(s)
    case Many(c, s) => c > 0 && Checked(s)
    case _ => false
  }

  predicate EndsStrict(l: Layout)
  {
    |l| > 0 && l[|l| - 1].Field? && StrictKind(l[|l| - 1].kind)
  }

  // ---------------------------------------------------------------------
  // Lemmas

  lemma {:induction false} WidthAppend(a: Layout, b: Layout)
    ensures Width(a + b) == Width(a) + Width(b)
  {
    if a == [] {
      assert a + b == b;
    } else {
      assert (a + b)[0] == a[0];
      assert (a + b)[1..] == a[1..] + b;
      WidthAppend(a[1..], b);
    }
  }

  lemma NotNamedAppend(a: Layout, b: Layout, n: string)
    requires NotNamed(a, n) && NotNamed(b, n)
    ensures NotNamed(a + b, n)
  {
    forall i | 0 <= i < |a + b| ensures !Writes((a + b)[i], n) {
      if i >= |a| {
        assert (a + b)[i] == b[i - |a|];
      }
    }
  }

  lemma KeepsAppend(a: Layout, b: Layout, keys: set<string>)
    requires Keeps(a, keys) && Keeps(b, keys)
    ensures Keeps(a + b, keys)
  {
    forall i | 0 <= i < |a + b| && (a + b)[i].Field? ensures (a + b)[i].name !in keys {
      if i >= |a| {
        assert (a + b)[i] == b[i - |a|];
      }
    }
  }

  lemma EndsStrictAppend(a: Layout, b: Layout)
    requires EndsStrict(b)
    ensures EndsStrict(a + b)
  {
    assert (a + b)[|a + b| - 1] == b[|b| - 1];
  }

  lemma KeepsNotNamed(l: Layout, keys: set<string>, n: string)
    requires Keeps(l, keys) && n in keys
    ensures NotNamed(l, n)
  {
  }

  /** Walking `a + b` is walking `a`, then `b` from where `a` ended. */
  lemma {:induction false} ReadFromAppend(buf: seq<byte>, pos: nat, a: Layout, b: Layout, acc: Frame)
    ensures var r := ReadFrom(buf, pos, a, acc);
      ReadFrom(buf, pos, a + b, acc) == if r.None? then None else ReadFrom(buf, pos + Width(a), b, r.value)
    decreases |a|
  {
    if a == [] {
      assert a + b == b;
    } else {
      assert (a + b)[0] == a[0];
      assert (a + b)[1..] == a[1..] + b;
      if a[0].Gap? {
        ReadFromAppend(buf, pos + a[0].n, a[1..], b, acc);
      } else {
        var v := ReadKind(buf, pos, a[0].kind);
        if v.Some? {
          ReadFromAppend(buf, pos + KindWidth(a[0].kind), a[1..], b, acc[a[0].name := v.value]);
        }
      }
    }
  }

  lemma {:induction false} RowWidthAppend(a: seq<Col>, b: seq<Col>)
    ensures RowWidth(a + b) == RowWidth(a) + RowWidth(b)
  {
    if a == [] {
      assert a + b == b;
    } else {
      assert (a + b)[0] == a[0];
      assert (a + b)[1..] == a[1..] + b;
      RowWidthAppend(a[1..], b);
    }
  }

  /**
   * When every column is a checked read, reading column by column fails
   * exactly when the record runs past the end, and otherwise gives the record
   * decoded from its bytes.
   */
  lemma {:induction false} RowByColumns(buf: seq<byte>, pos: nat, cols: seq<Col>, acc: map<string, Value>)
    requires AllChecked(cols)
    ensures ReadColumns(buf, pos, cols, acc) == ReadRow(buf, pos, cols, acc)
    decreases |cols|
  {
    if cols != [] {
      var c, rest := cols[0], cols[1..];
      assert Checked(c.s);
      assert AllChecked(rest) by {
        forall i | 0 <= i < |rest| ensures Checked(rest[i].s) {
          assert rest[i] == cols[i + 1];
        }
      }
      var v := ReadScalar(buf, pos, c.s);
      assert RowWidth(cols) == ScalarWidth(c.s) + RowWidth(rest);
      if v.Some? {
        RowStep(buf, pos, cols, acc);
        RowByColumns(buf, pos + ScalarWidth(c.s), rest, acc[c.name := v.value]);
      }
    }
  }

  /** A record whose first column reads is that column followed by the rest of the record. */
  lemma RowStep(buf: seq<byte>, pos: nat, cols: seq<Col>, acc: map<string, Value>)
    requires cols != [] && Checked(cols[0].s) && ReadScalar(buf, pos, cols[0].s).Some?
    ensures var w := ScalarWidth(cols[0].s);
      ReadRow(buf, pos, cols, acc)
        == ReadRow(buf, pos + w, cols[1..], acc[cols[0].name := ReadScalar(buf, pos, cols[0].s).value])
  {
    var c, rest := cols[0], cols[1..];
    var w := ScalarWidth(c.s);
    var v := ReadScalar(buf, pos, c.s);
    var acc' := acc[c.name := v.value];
    assert RowWidth(cols) == w + RowWidth(rest);
    if pos + RowWidth(cols) <= |buf| {
      var bytes := buf[pos..pos + RowWidth(cols)];
      assert bytes[..w] == buf[pos..pos + w];
      assert v.value == ColumnValue(bytes[..w], c.s);
      assert bytes[w..] == buf[pos + w..pos + w + RowWidth(rest)];
      assert ReadRow(buf, pos, cols, acc) == Some(DecodeRow(bytes[w..], rest, acc'));
      if rest != [] {
        assert ReadRow(buf, pos + w, rest, acc') == Some(DecodeRow(bytes[w..], rest, acc'));
      }
    } else {
      assert rest != [];
      assert ReadRow(buf, pos + w, rest, acc') == None;
    }
  }


  lemma MulStep(c: nat, w: nat)
    requires c > 0
    ensures (c - 1) * w + w == c * w
    ensures 0 <= (c - 1) * w && w <= c * w
  {
  }

  lemma {:induction false} ReadManySome(buf: seq<byte>, pos: nat, count: nat, s: Scalar, acc: seq<Value>)
    requires pos + count * ScalarWidth(s) <= |buf|
    ensures ReadMany(buf, pos, count, s, acc).Some?
    decreases count
  {
    if count > 0 {
      MulStep(count, ScalarWidth(s));
      var x := ReadScalar(buf, pos, s);
      ReadManySome(buf, pos + ScalarWidth(s), count - 1, s, acc + [x.value]);
    }
  }

  lemma {:induction false} ReadRowsSome(buf: seq<byte>, pos: nat, count: nat, cols: seq<Col>, acc: seq<Value>)
    requires pos + count * RowWidth(cols) <= |buf|
    ensures ReadRows(buf, pos, count, cols, acc).Some?
    decreases count
  {
    if count > 0 {
      var w := RowWidth(cols);
      MulStep(count, w);
      assert pos + w + (count - 1) * w <= |buf|;
      var row := ReadRow(buf, pos, cols, map[]);
      ReadRowsSome(buf, pos + w, count - 1, cols, acc + [Obj(row.value)]);
    }
  }

  /** An array read pushes exactly `count` values onto what it started with. */
  lemma {:induction false} ReadManyLength(buf: seq<byte>, pos: nat, count: nat, s: Scalar, acc: seq<Value>)
    requires ReadMany(buf, pos, count, s, acc).Some?
    ensures |ReadMany(buf, pos, count, s, acc).value| == |acc| + count
    decreases count
  {
    if count > 0 {
      var x := ReadScalar(buf, pos, s);
      ReadManyLength(buf, pos + ScalarWidth(s), count - 1, s, acc + [x.value]);
    }
  }

  /** An array field holds exactly its count of values. */
  lemma ManyLength(buf: seq<byte>, pos: nat, count: nat, s: Scalar)
    requires ReadKind(buf, pos, Many(count, s)).Some?
    ensures var v := ReadKind(buf, pos, Many(count, s)).value;
      v.List? && |v.items| == count
  {
    ReadManyLength(buf, pos, count, s, []);
  }

  lemma {:induction false} ReadRowsLength(buf: seq<byte>, pos: nat, count: nat, cols: seq<Col>, acc: seq<Value>)
    requires ReadRows(buf, pos, count, cols, acc).Some?
    ensures |ReadRows(buf, pos, count, cols, acc).value| == |acc| + count
    decreases count
  {
    if count > 0 {
      var row := ReadRow(buf, pos, cols, map[]);
      ReadRowsLength(buf, pos + RowWidth(cols), count - 1, cols, acc + [Obj(row.value)]);
    }
  }

  lemma ReadKindSome(buf: seq<byte>, pos: nat, k: Kind)
    requires pos + KindWidth(k) <= |buf|
    ensures ReadKind(buf, pos, k).Some?
  {
    match k
    case One(s) =>
    case Const(_) =>
    case Many(c, s) => ReadManySome(buf, pos, c, s, []);
    case Table(c, cols) => ReadRowsSome(buf, pos, c, cols, []);
  }

  /** A strict many-read fails when its last element is past the end. */
  lemma {:induction false} ReadManyStrict(buf: seq<byte>, pos: nat, count: nat, s: Scalar, acc: seq<Value>)
    requires count > 0 && Checked(s) && ReadMany(buf, pos, count, s, acc).Some?
    ensures pos + count * ScalarWidth(s) <= |buf|
    decreases count
  {
    MulStep(count, ScalarWidth(s));
    var x := ReadScalar(buf, pos, s);
    if count > 1 {
      ReadManyStrict(buf, pos + ScalarWidth(s), count - 1, s, acc + [x.value]);
    }
  }

  /** A walk that stays within the buffer never fails. */
  lemma {:induction false} ReadFromSome(buf: seq<byte>, pos: nat, l: Layout, acc: Frame)
    requires pos + Width(l) <= |buf|
    ensures ReadFrom(buf, pos, l, acc).Some?
    decreases |l|
  {
    if l != [] {
      match l[0]
      case Gap(n) => ReadFromSome(buf, pos + n, l[1..], acc);
      case Field(name, k) =>
        ReadKindSome(buf, pos, k);
        var v := ReadKind(buf, pos, k).value;
        ReadFromSome(buf, pos + KindWidth(k), l[1..], acc[name := v]);
    }
  }

  /** A walk that ends in a strict read fails whenever it would pass the end. */
  lemma ReadFromStrict(buf: seq<byte>, pos: nat, l: Layout, acc: Frame)
    requires EndsStrict(l) && ReadFrom(buf, pos, l, acc).Some?
    ensures pos + Width(l) <= |buf|
  {
    var a, last := l[..|l| - 1], l[|l| - 1];
    assert l == a + [last];
    ReadFromAppend(buf, pos, a, [last], acc);
    WidthAppend(a, [last]);
    var m := ReadFrom(buf, pos, a, acc).value;
    assert [last][1..] == [];
    match last.kind
    case One(s) =>
    case Many(c, s) =>
      ReadManyStrict(buf, pos + Width(a), c, s, []);
  }

  /** For a layout ending in a strict read: it succeeds exactly when it fits. */
  lemma ReadFromSomeIff(buf: seq<byte>, pos: nat, l: Layout, acc: Frame)
    requires EndsStrict(l)
    ensures ReadFrom(buf, pos, l, acc).Some? <==> pos + Width(l) <= |buf|
  {
    if pos + Width(l) <= |buf| {
      ReadFromSome(buf, pos, l, acc);
    }
    if ReadFrom(buf, pos, l, acc).Some? {
      ReadFromStrict(buf, pos, l, acc);
    }
  }

  /** A key that no field names keeps its value from `acc`. */
  lemma {:induction false} ReadFromKeeps(buf: seq<byte>, pos: nat, l: Layout, acc: Frame, n: string)
    requires NotNamed(l, n) && ReadFrom(buf, pos, l, acc).Some?
    ensures var m := ReadFrom(buf, pos, l, acc).value;
      (n in m <==> n in acc) && (n in acc ==> m[n] == acc[n])
    decreases |l|
  {
    if l != [] {
      assert !Writes(l[0], n);
      assert NotNamed(l[1..], n) by {
        forall i | 0 <= i < |l[1..]| ensures !Writes(l[1..][i], n) {
          assert l[1..][i] == l[i + 1];
        }
      }
      match l[0]
      case Gap(k) => ReadFromKeeps(buf, pos + k, l[1..], acc, n);
      case Field(name, k) =>
        var v := ReadKind(buf, pos, k).value;
        ReadFromKeeps(buf, pos + KindWidth(k), l[1..], acc[name := v], n);
    }
  }

  /** Every key set before the walk and not named by a field comes through unchanged. */
  lemma ReadFromKeepsAll(buf: seq<byte>, pos: nat, l: Layout, acc: Frame, keys: set<string>)
    requires Keeps(l, keys) && ReadFrom(buf, pos, l, acc).Some?
    ensures var m := ReadFrom(buf, pos, l, acc).value;
      forall n | n in keys && n in acc :: n in m && m[n] == acc[n]
  {
    forall n | n in keys && n in acc
      ensures n in ReadFrom(buf, pos, l, acc).value && ReadFrom(buf, pos, l, acc).value[n] == acc[n]
    {
      KeepsNotNamed(l, keys, n);
      ReadFromKeeps(buf, pos, l, acc, n);
    }
  }

  /** The frame a walk produces holds the keys it started with and the names of the fields. */
  lemma {:induction false} ReadFromKeys(buf: seq<byte>, pos: nat, l: Layout, acc: Frame)
    requires ReadFrom(buf, pos, l, acc).Some?
    ensures ReadFrom(buf, pos, l, acc).value.Keys == acc.Keys + Names(l)
    decreases |l|
  {
    if l != [] {
      FromStep(buf, pos, l, acc);
      if l[0].Gap? {
        ReadFromKeys(buf, pos + l[0].n, l[1..], acc);
      } else {
        var v := ReadKind(buf, pos, l[0].kind).value;
        ReadFromKeys(buf, pos + KindWidth(l[0].kind), l[1..], acc[l[0].name := v]);
      }
    }
  }

  /**
   * The value of a field in the frame is what its own read produced at its
   * offset, provided no later field reuses the name.
   */
  lemma FieldAt(buf: seq<byte>, pos: nat, a: Layout, n: string, k: Kind, b: Layout, acc: Frame)
    requires NotNamed(b, n)
    requires ReadFrom(buf, pos, a + [Field(n, k)] + b, acc).Some?
    ensures ReadKind(buf, pos + Width(a), k).Some?
    ensures var m := ReadFrom(buf, pos, a + [Field(n, k)] + b, acc).value;
      n in m && m[n] == ReadKind(buf, pos + Width(a), k).value
  {
    var f := [Field(n, k)];
    ReadFromAppend(buf, pos, a + f, b, acc);
    ReadFromAppend(buf, pos, a, f, acc);
    WidthAppend(a, f);
    var m0 := ReadFrom(buf, pos, a, acc).value;
    assert f[1..] == [];
    FromStep(buf, pos + Width(a), f, m0);
    var v := ReadKind(buf, pos + Width(a), k).value;
    ReadFromKeeps(buf, pos + Width(a + f), b, m0[n := v], n);
  }

  /** Fields appended after `a` that do not name `n` leave what the walk of `a` put under `n`. */
  lemma ReadFromPrefix(buf: seq<byte>, pos: nat, a: Layout, b: Layout, acc: Frame, n: string)
    requires NotNamed(b, n) && ReadFrom(buf, pos, a + b, acc).Some?
    ensures ReadFrom(buf, pos, a, acc).Some?
    ensures var m, m1 := ReadFrom(buf, pos, a + b, acc).value, ReadFrom(buf, pos, a, acc).value;
      (n in m <==> n in m1) && (n in m1 ==> m[n] == m1[n])
  {
    ReadFromAppend(buf, pos, a, b, acc);
    ReadFromKeeps(buf, pos + Width(a), b, ReadFrom(buf, pos, a, acc).value, n);
  }

  /** The last field of a walk holds what its own read produced. */
  lemma FieldLast(buf: seq<byte>, pos: nat, a: Layout, n: string, k: Kind, acc: Frame)
    requires ReadFrom(buf, pos, a + [Field(n, k)], acc).Some?
    ensures ReadKind(buf, pos + Width(a), k).Some?
    ensures var m := ReadFrom(buf, pos, a + [Field(n, k)], acc).value;
      n in m && m[n] == ReadKind(buf, pos + Width(a), k).value
  {
    ReadFromAppend(buf, pos, a, [Field(n, k)], acc);
  }

  /** A walk of one field holds what that read produced. */
  lemma FieldFirst(buf: seq<byte>, pos: nat, n: string, k: Kind, acc: Frame)
    requires ReadFrom(buf, pos, [Field(n, k)], acc).Some?
    ensures ReadKind(buf, pos, k).Some?
    ensures var m := ReadFrom(buf, pos, [Field(n, k)], acc).value;
      n in m && m[n] == ReadKind(buf, pos, k).value
  {
  }

  // ---------------------------------------------------------------------
  // Windows: a walk looks only at the bytes it advances over

  /** `n` bytes from `p1` in `b1` equal `n` bytes from `p2` in `b2`. */
  predicate SameBytes(b1: seq<byte>, p1: nat, b2: seq<byte>, p2: nat, n: nat)
  {
    p1 + n <= |b1| && p2 + n <= |b2| && b1[p1..p1 + n] == b2[p2..p2 + n]
  }

  lemma SameBytesSub(b1: seq<byte>, p1: nat, b2: seq<byte>, p2: nat, n: nat, o: nat, m: nat)
    requires SameBytes(b1, p1, b2, p2, n) && o + m <= n
    ensures SameBytes(b1, p1 + o, b2, p2 + o, m)
  {
    var w1, w2 := b1[p1..p1 + n], b2[p2..p2 + n];
    var s1, s2 := b1[p1 + o..p1 + o + m], b2[p2 + o..p2 + o + m];
    forall i | 0 <= i < m ensures s1[i] == s2[i] {
      assert s1[i] == w1[o + i] && s2[i] == w2[o + i];
    }
  }

  lemma ScalarWindow(b1: seq<byte>, p1: nat, b2: seq<byte>, p2: nat, s: Scalar)
    requires SameBytes(b1, p1, b2, p2, ScalarWidth(s))
    ensures ReadScalar(b1, p1, s) == ReadScalar(b2, p2, s)
  {
    if s.Wide? {
      WideUnitsWindow(b1, p1, b2, p2, s.maxLength);
    }
  }

  lemma RowWindow(b1: seq<byte>, p1: nat, b2: seq<byte>, p2: nat, cols: seq<Col>, acc: map<string, Value>)
    requires SameBytes(b1, p1, b2, p2, RowWidth(cols))
    ensures ReadRow(b1, p1, cols, acc) == ReadRow(b2, p2, cols, acc)
  {
  }

  lemma SameBytesSplit(b1: seq<byte>, p1: nat, b2: seq<byte>, p2: nat, n: nat, w: nat, m: nat)
    requires SameBytes(b1, p1, b2, p2, n) && w + m == n
    ensures SameBytes(b1, p1, b2, p2, w) && SameBytes(b1, p1 + w, b2, p2 + w, m)
  {
    SameBytesSub(b1, p1, b2, p2, n, 0, w);
    SameBytesSub(b1, p1, b2, p2, n, w, m);
  }

  /** One unfolding of an array read. */
  lemma ManyUnfold(buf: seq<byte>, pos: nat, k: nat, s: Scalar, acc: seq<Value>)
    requires k > 0
    ensures var x := ReadScalar(buf, pos, s);
      ReadMany(buf, pos, k, s, acc)
      == if x.None? then None else ReadMany(buf, pos + ScalarWidth(s), k - 1, s, acc + [x.value])
  {
  }

  /** One unfolding of a sub-record array read. */
  lemma RowsUnfold(buf: seq<byte>, pos: nat, k: nat, cols: seq<Col>, acc: seq<Value>)
    requires k > 0
    ensures var row := ReadRow(buf, pos, cols, map[]);
      ReadRows(buf, pos, k, cols, acc)
      == if row.None? then None else ReadRows(buf, pos + RowWidth(cols), k - 1, cols, acc + [Obj(row.value)])
  {
  }

  /** An array read looks only at its `count * width` bytes. */
  lemma {:induction false} ManyWindow(b1: seq<byte>, p1: nat, b2: seq<byte>, p2: nat, count: nat, s: Scalar, acc: seq<Value>)
    requires SameBytes(b1, p1, b2, p2, count * ScalarWidth(s))
    ensures ReadMany(b1, p1, count, s, acc) == ReadMany(b2, p2, count, s, acc)
    decreases count
  {
    if count > 0 {
      var w := ScalarWidth(s);
      MulStep(count, w);
      SameBytesSplit(b1, p1, b2, p2, count * w, w, (count - 1) * w);
      ScalarWindow(b1, p1, b2, p2, s);
      var x := ReadScalar(b1, p1, s);
      if x.Some? {
        ManyWindow(b1, p1 + w, b2, p2 + w, count - 1, s, acc + [x.value]);
      }
      ManyUnfold(b1, p1, count, s, acc);
      ManyUnfold(b2, p2, count, s, acc);
    }
  }

  /** A sub-record array read looks only at its `count * width` bytes. */
  lemma {:induction false} RowsWindow(b1: seq<byte>, p1: nat, b2: seq<byte>, p2: nat, count: nat, cols: seq<Col>, acc: seq<Value>)
    requires SameBytes(b1, p1, b2, p2, count * RowWidth(cols))
    ensures ReadRows(b1, p1, count, cols, acc) == ReadRows(b2, p2, count, cols, acc)
    decreases count
  {
    if count > 0 {
      var w := RowWidth(cols);
      MulStep(count, w);
      SameBytesSplit(b1, p1, b2, p2, count * w, w, (count - 1) * w);
      RowWindow(b1, p1, b2, p2, cols, map[]);
      var row := ReadRow(b1, p1, cols, map[]);
      if row.Some? {
        RowsWindow(b1, p1 + w, b2, p2 + w, count - 1, cols, acc + [Obj(row.value)]);
      }
      RowsUnfold(b1, p1, count, cols, acc);
      RowsUnfold(b2, p2, count, cols, acc);
    }
  }

  lemma KindWindow(b1: seq<byte>, p1: nat, b2: seq<byte>, p2: nat, k: Kind)
    requires SameBytes(b1, p1, b2, p2, KindWidth(k))
    ensures ReadKind(b1, p1, k) == ReadKind(b2, p2, k)
  {
    match k
    case One(s) => ScalarWindow(b1, p1, b2, p2, s);
    case Const(_) =>
    case Many(c, s) => ManyWindow(b1, p1, b2, p2, c, s, []);
    case Table(c, cols) => RowsWindow(b1, p1, b2, p2, c, cols, []);
  }

  /** One step of the walk. */
  lemma FromStep(buf: seq<byte>, pos: nat, l: Layout, acc: Frame)
    requires l != []
    ensures ReadFrom(buf, pos, l, acc)
      == if l[0].Gap? then ReadFrom(buf, pos + l[0].n, l[1..], acc)
         else
           var v := ReadKind(buf, pos, l[0].kind);
           if v.None? then None else ReadFrom(buf, pos + KindWidth(l[0].kind), l[1..], acc[l[0].name := v.value])
  {
  }

  /** Two buffers that agree on the bytes a walk advances over give the same frame. */
  lemma {:induction false} ReadFromWindow(b1: seq<byte>, p1: nat, b2: seq<byte>, p2: nat, l: Layout, acc: Frame)
    requires SameBytes(b1, p1, b2, p2, Width(l))
    ensures ReadFrom(b1, p1, l, acc) == ReadFrom(b2, p2, l, acc)
    decreases |l|
  {
    if l != [] {
      var w := FieldWidth(l[0]);
      SameBytesSplit(b1, p1, b2, p2, Width(l), w, Width(l[1..]));
      FromStep(b1, p1, l, acc);
      FromStep(b2, p2, l, acc);
      if l[0].Gap? {
        ReadFromWindow(b1, p1 + w, b2, p2 + w, l[1..], acc);
      } else {
        KindWindow(b1, p1, b2, p2, l[0].kind);
        var v := ReadKind(b1, p1, l[0].kind);
        if v.Some? {
          ReadFromWindow(b1, p1 + w, b2, p2 + w, l[1..], acc[l[0].name := v.value]);
        }
      }
    }
  }

  // ---------------------------------------------------------------------
  // The cursor walk

  /** One iteration of the push loop over scalars, at index `i` of `count`. */
  lemma ManyStep(buf: seq<byte>, pos: nat, count: nat, i: nat, s: Scalar, acc: seq<Value>)
    requires i < count
    ensures var x := ReadScalar(buf, pos, s);
      ReadMany(buf, pos, count - i, s, acc)
      == if x.None? then None else ReadMany(buf, pos + ScalarWidth(s), count - (i + 1), s, acc + [x.value])
  {
    var k := count - i;
    assert count - (i + 1) == k - 1;
    ManyUnfold(buf, pos, k, s, acc);
  }

  /** One iteration of the push loop over sub-records. */
  lemma RowsStep(buf: seq<byte>, pos: nat, count: nat, i: nat, cols: seq<Col>, acc: seq<Value>)
    requires i < count
    ensures var row := ReadRow(buf, pos, cols, map[]);
      ReadRows(buf, pos, count - i, cols, acc)
      == if row.None? then None else ReadRows(buf, pos + RowWidth(cols), count - (i + 1), cols, acc + [Obj(row.value)])
  {
    var k := count - i;
    assert count - (i + 1) == k - 1;
    RowsUnfold(buf, pos, k, cols, acc);
  }

  /** The push loop over an array of scalars, advancing the cursor by the element width. */
  method ReadScalars(buf: seq<byte>, pos: nat, count: nat, s: Scalar) returns (r: Option<seq<Value>>)
    ensures r == ReadMany(buf, pos, count, s, [])
  {
    var xs: seq<Value> := [];
    var offset: nat := pos;
    var i := 0;
    while i < count
      invariant i <= count
      invariant ReadMany(buf, pos, count, s, []) == ReadMany(buf, offset, count - i, s, xs)
    {
      var x := ReadScalar(buf, offset, s);
      ManyStep(buf, offset, count, i, s, xs);
      if x.None? {
        return None;
      }
      xs := xs + [x.value];
      offset := offset + ScalarWidth(s);
      i := i + 1;
    }
    return Some(xs);
  }

  /**
   * The push loop over an array of sub-records, advancing by the record
   * width; each record is one object literal of reads.
   */
  method ReadRecords(buf: seq<byte>, pos: nat, count: nat, cols: seq<Col>) returns (r: Option<seq<Value>>)
    ensures r == ReadRows(buf, pos, count, cols, [])
  {
    var xs: seq<Value> := [];
    var offset: nat := pos;
    var i := 0;
    while i < count
      invariant i <= count
      invariant ReadRows(buf, pos, count, cols, []) == ReadRows(buf, offset, count - i, cols, xs)
    {
      var row := ReadRow(buf, offset, cols, map[]);
      RowsStep(buf, offset, count, i, cols, xs);
      if row.None? {
        return None;
      }
      xs := xs + [Obj(row.value)];
      offset := offset + RowWidth(cols);
      i := i + 1;
    }
    return Some(xs);
  }

  method ReadField(buf: seq<byte>, pos: nat, k: Kind) returns (r: Option<Value>)
    ensures r == ReadKind(buf, pos, k)
  {
    match k
    case One(s) =>
      if s.Wide? {
        var u := DecodeWideString(buf, pos, s.maxLength);
        r := Some(Units(u));
      } else {
        r := ReadScalar(buf, pos, s);
      }
    case Const(v) =>
      r := Some(v);
    case Many(c, s) =>
      var xs := ReadScalars(buf, pos, c, s);
      r := if xs.None? then None else Some(List(xs.value));
    case Table(c, cols) =>
      var xs := ReadRecords(buf, pos, c, cols);
      r := if xs.None? then None else Some(List(xs.value));
  }

  /**
   * The cursor walk of a decoder: fields in wire order, the cursor moving by
   * each field's width, the first failing read abandoning the record.
   */
  method ReadLayout(buf: seq<byte>, pos: nat, l: Layout, acc: Frame) returns (r: Option<Frame>)
    ensures r == ReadFrom(buf, pos, l, acc)
  {
    var frame := acc;
    var offset: nat := pos;
    var i := 0;
    while i < |l|
      invariant i <= |l|
      invariant ReadFrom(buf, pos, l, acc) == ReadFrom(buf, offset, l[i..], frame)
    {
      assert l[i..][0] == l[i] && l[i..][1..] == l[i + 1..];
      match l[i] {
        case Gap(n) =>
          offset := offset + n;
        case Field(name, k) =>
          var v := ReadField(buf, offset, k);
          if v.None? {
            return None;
          }
          frame := frame[name := v.value];
          offset := offset + KindWidth(k);
      }
      i := i + 1;
    }
    assert l[i..] == [];
    return Some(frame);
  }

  /** A whole-number scalar inside the buffer reads as an `Int`. */
  lemma IntegerRead(buf: seq<byte>, pos: nat, s: Scalar)
    requires s.U8? || s.U16? || s.U32? || s.I8? || s.I16? || s.I32?
    requires pos + ScalarWidth(s) <= |buf|
    ensures ReadScalar(buf, pos, s).Some? && ReadScalar(buf, pos, s).value.Int?
  {
  }
}
