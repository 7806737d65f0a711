/**
 * The early-exit push loops of the F1 25 decoder. Unlike a fixed-count
 * array, such a loop checks the buffer length before each read and stops
 * quietly when the next value would pass the end, so it never fails: the
 * session history arrays and the rows of the lap positions matrix.
 */
module BoundedReads {
  import opened Wire
  import opened Frames

  /** An element width: the loops read unsigned 1-, 2- and 4-byte values. */
  type Positive = n: nat | n >= 1 witness 1

  /**
   * The loop `for (i < max) { if (offset + w > byteLength) break; push(getUintW(offset)); offset += w; }`
   * from `pos`: the values in wire order, until `max` of them or until the
   * next one would pass the end.
   */
  function UpTo(buf: seq<byte>, pos: nat, max: nat, w: Positive): seq<Value>
    decreases max
  {
    if max == 0 || pos + w > |buf| then []
    else [Int(LittleEndian(buf[pos..pos + w]))] + UpTo(buf, pos + w, max - 1, w)
  }

  /** `(n + 1) * w` spelled out, for the cursor steps. */
  lemma MulSucc(n: nat, w: nat)
    ensures (n + 1) * w == n * w + w
  {
  }

  /**
   * How much the loop reads: at most `max` values, all within the buffer,
   * and it stopped either after `max` values or because the next value would
   * pass the end.
   */
  lemma {:induction false} UpToLength(buf: seq<byte>, pos: nat, max: nat, w: Positive)
    ensures var r := UpTo(buf, pos, max, w);
      && |r| <= max
      && (r == [] || pos + |r| * w <= |buf|)
      && (|r| == max || pos + (|r| + 1) * w > |buf|)
    decreases max
  {
    var r := UpTo(buf, pos, max, w);
    if max > 0 && pos + w <= |buf| {
      var rest := UpTo(buf, pos + w, max - 1, w);
      UpToLength(buf, pos + w, max - 1, w);
      assert |r| == |rest| + 1;
      MulSucc(|rest|, w);
      MulSucc(|rest| + 1, w);
    }
  }

  /** What the loop reads: the i-th value is the unsigned value at `pos + i * w`. */
  lemma {:induction false} UpToValues(buf: seq<byte>, pos: nat, max: nat, w: Positive)
    ensures var r := UpTo(buf, pos, max, w);
      forall i | 0 <= i < |r| :: Unsigned(buf, pos + i * w, w).Some? && r[i] == Int(Unsigned(buf, pos + i * w, w).value)
    decreases max
  {
    var r := UpTo(buf, pos, max, w);
    if max > 0 && pos + w <= |buf| {
      var rest := UpTo(buf, pos + w, max - 1, w);
      UpToValues(buf, pos + w, max - 1, w);
      forall i | 0 <= i < |r|
        ensures Unsigned(buf, pos + i * w, w).Some? && r[i] == Int(Unsigned(buf, pos + i * w, w).value)
      {
        if i > 0 {
          assert r[i] == rest[i - 1];
          MulSucc(i - 1, w);
        }
      }
    }
  }

  /** Reading `a + b` values is reading `a`, then `b` more from where those stopped. */
  lemma {:induction false} UpToSplit(buf: seq<byte>, pos: nat, a: nat, b: nat, w: Positive)
    ensures var x := UpTo(buf, pos, a, w);
      UpTo(buf, pos, a + b, w) == x + UpTo(buf, pos + |x| * w, b, w)
    decreases a
  {
    var x := UpTo(buf, pos, a, w);
    if a == 0 {
      assert x == [];
    } else if pos + w > |buf| {
      assert x == [];
      assert UpTo(buf, pos, a + b, w) == [];
    } else {
      var h := Int(LittleEndian(buf[pos..pos + w]));
      var y := UpTo(buf, pos + w, a - 1, w);
      var z := UpTo(buf, pos + w + |y| * w, b, w);
      UpToSplit(buf, pos + w, a - 1, b, w);
      assert UpTo(buf, pos + w, (a - 1) + b, w) == y + z;
      assert UpTo(buf, pos, a + b, w) == [h] + (y + z);
      assert x == [h] + y;
      MulSucc(|y|, w);
      assert pos + |x| * w == pos + w + |y| * w;
      AppendAssociates([h], y, z);
    }
  }

  /** One-byte reads take every byte up to `max` or to the end of the buffer. */
  lemma BytesUpTo(buf: seq<byte>, pos: nat, max: nat)
    requires pos <= |buf|
    ensures |UpTo(buf, pos, max, 1)| == if max <= |buf| - pos then max else |buf| - pos
  {
    UpToLength(buf, pos, max, 1);
  }

  /** The early-exit loop, advancing the cursor by the element width after each push. */
  method ReadUpTo(buf: seq<byte>, pos: nat, max: nat, w: Positive) returns (xs: seq<Value>, next: nat)
    ensures xs == UpTo(buf, pos, max, w) && next == pos + |xs| * w
  {
    xs := [];
    next := pos;
    var i := 0;
    while i < max
      invariant i <= max && |xs| == i && next == pos + i * w
      invariant UpTo(buf, pos, max, w) == xs + UpTo(buf, next, max - i, w)
    {
      if next + w > |buf| {
        assert UpTo(buf, next, max - i, w) == [];
        AppendEmpty(xs);
        break;
      }
      var x := Int(LittleEndian(buf[next..next + w]));
      assert UpTo(buf, next, max - i, w) == [x] + UpTo(buf, next + w, max - (i + 1), w);
      AppendAssociates(xs, [x], UpTo(buf, next + w, max - (i + 1), w));
      MulSucc(i, w);
      xs := xs + [x];
      next := next + w;
      i := i + 1;
    }
    if i == max {
      assert UpTo(buf, next, 0, w) == [];
      AppendEmpty(xs);
    }
  }

  // ---------------------------------------------------------------------
  // A run of bounded arrays, each starting where the previous one stopped

  /** One early-exit array: its frame key, its maximum length and its element width. */
  datatype Bounded = Bounded(name: string, max: nat, width: Positive)

  /** Where array `k` of the run starts. */
  function Cursor(buf: seq<byte>, pos: nat, arrays: seq<Bounded>, k: nat): nat
    requires k <= |arrays|
    decreases k
  {
    if k == 0 then pos
    else
      var a := arrays[k - 1];
      var c := Cursor(buf, pos, arrays, k - 1);
      c + |UpTo(buf, c, a.max, a.width)| * a.width
  }

  /** The loops one after another: each array read from the previous cursor, added to the frame. */
  function ReadBounded(buf: seq<byte>, pos: nat, arrays: seq<Bounded>, acc: Frame): Frame
    decreases |arrays|
  {
    if arrays == [] then acc
    else
      var a := arrays[0];
      var xs := UpTo(buf, pos, a.max, a.width);
      ReadBounded(buf, pos + |xs| * a.width, arrays[1..], acc[a.name := List(xs)])
  }

  /** No two arrays of the run share a key. */
  predicate DistinctNames(arrays: seq<Bounded>)
  {
    forall i, j | 0 <= i < j < |arrays| :: arrays[i].name != arrays[j].name
  }

  /** The frame keeps every key of `acc` that no array names, with its value. */
  lemma {:induction false} ReadBoundedKeeps(buf: seq<byte>, pos: nat, arrays: seq<Bounded>, acc: Frame, key: string)
    requires key in acc && forall i | 0 <= i < |arrays| :: arrays[i].name != key
    ensures var r := ReadBounded(buf, pos, arrays, acc);
      key in r && r[key] == acc[key]
    decreases |arrays|
  {
    if arrays != [] {
      var a := arrays[0];
      var xs := UpTo(buf, pos, a.max, a.width);
      assert forall i | 0 <= i < |arrays[1..]| :: arrays[1..][i] == arrays[i + 1];
      ReadBoundedKeeps(buf, pos + |xs| * a.width, arrays[1..], acc[a.name := List(xs)], key);
    }
  }

  /** The frame holds the keys of `acc` and the array names, nothing else. */
  lemma {:induction false} ReadBoundedKeys(buf: seq<byte>, pos: nat, arrays: seq<Bounded>, acc: Frame)
    ensures ReadBounded(buf, pos, arrays, acc).Keys == acc.Keys + set i | 0 <= i < |arrays| :: arrays[i].name
    decreases |arrays|
  {
    if arrays != [] {
      var a := arrays[0];
      var xs := UpTo(buf, pos, a.max, a.width);
      ReadBoundedKeys(buf, pos + |xs| * a.width, arrays[1..], acc[a.name := List(xs)]);
      var names := set i | 0 <= i < |arrays| :: arrays[i].name;
      var rest := set i | 0 <= i < |arrays[1..]| :: arrays[1..][i].name;
      assert names == {a.name} + rest by {
        forall n | n in names ensures n in {a.name} + rest {
          var i :| 0 <= i < |arrays| && arrays[i].name == n;
          if i > 0 {
            assert arrays[1..][i - 1].name == n;
          }
        }
      }
    }
  }

  /**
   * Array `k` of a run with distinct keys is the early-exit read of its
   * element width at its cursor, so at most `max` values, in wire order.
   */
  lemma {:induction false} ReadBoundedAt(buf: seq<byte>, pos: nat, arrays: seq<Bounded>, acc: Frame, k: nat)
    requires DistinctNames(arrays) && k < |arrays|
    ensures var r := ReadBounded(buf, pos, arrays, acc);
      var a := arrays[k];
      a.name in r && r[a.name] == List(UpTo(buf, Cursor(buf, pos, arrays, k), a.max, a.width))
    decreases |arrays|
  {
    var a := arrays[0];
    var xs := UpTo(buf, pos, a.max, a.width);
    var tail := arrays[1..];
    var next := pos + |xs| * a.width;
    assert ReadBounded(buf, pos, arrays, acc) == ReadBounded(buf, next, tail, acc[a.name := List(xs)]);
    if k == 0 {
      forall i | 0 <= i < |tail|
        ensures tail[i].name != a.name
      {
        assert tail[i] == arrays[i + 1];
      }
      ReadBoundedKeeps(buf, next, tail, acc[a.name := List(xs)], a.name);
    } else {
      assert DistinctNames(tail) by {
        forall i, j | 0 <= i < j < |tail|
          ensures tail[i].name != tail[j].name
        {
          assert tail[i] == arrays[i + 1] && tail[j] == arrays[j + 1];
        }
      }
      assert tail[k - 1] == arrays[k];
      ReadBoundedAt(buf, next, tail, acc[a.name := List(xs)], k - 1);
      CursorShift(buf, pos, arrays, k);
    }
  }

  /** Dropping the first array moves every later cursor to the same place. */
  lemma {:induction false} CursorShift(buf: seq<byte>, pos: nat, arrays: seq<Bounded>, k: nat)
    requires 1 <= k <= |arrays|
    ensures var a := arrays[0];
      Cursor(buf, pos + |UpTo(buf, pos, a.max, a.width)| * a.width, arrays[1..], k - 1) == Cursor(buf, pos, arrays, k)
    decreases k
  {
    if k > 1 {
      CursorShift(buf, pos, arrays, k - 1);
      assert arrays[1..][k - 2] == arrays[k - 1];
    }
  }

  /** The run of loops, each advancing the cursor past what it read. */
  method ReadBoundedArrays(buf: seq<byte>, pos: nat, arrays: seq<Bounded>, acc: Frame) returns (r: Frame)
    ensures r == ReadBounded(buf, pos, arrays, acc)
  {
    r := acc;
    var offset := pos;
    var i := 0;
    while i < |arrays|
      invariant i <= |arrays|
      invariant ReadBounded(buf, pos, arrays, acc) == ReadBounded(buf, offset, arrays[i..], r)
    {
      assert arrays[i..][0] == arrays[i] && arrays[i..][1..] == arrays[i + 1..];
      var xs, next := ReadUpTo(buf, offset, arrays[i].max, arrays[i].width);
      r := r[arrays[i].name := List(xs)];
      offset := next;
      i := i + 1;
    }
    assert arrays[i..] == [];
  }

  // ---------------------------------------------------------------------
  // Rows of a matrix, each an early-exit loop of one-byte values

  /**
   * The nested loop of lap positions: up to `rows` rows of up to `perRow`
   * one-byte values; a row is pushed even when it came up short, and the
   * outer loop ends after `rows` rows or once the cursor is at the end.
   */
  function PositionRows(buf: seq<byte>, pos: nat, rows: nat, perRow: nat): seq<seq<Value>>
    decreases rows
  {
    if rows == 0 then []
    else
      var row := UpTo(buf, pos, perRow, 1);
      [row] + (if pos + |row| >= |buf| then [] else PositionRows(buf, pos + |row|, rows - 1, perRow))
  }

  /** The values of all rows, one row after another. */
  function Flatten(rows: seq<seq<Value>>): seq<Value>
  {
    if rows == [] then [] else rows[0] + Flatten(rows[1..])
  }

  /**
   * The rows hold exactly what one early-exit loop over `rows * perRow` bytes
   * reads: the bytes from `pos` in wire order, up to that many or to the end.
   */
  lemma {:induction false} PositionRowsFlat(buf: seq<byte>, pos: nat, rows: nat, perRow: nat)
    ensures Flatten(PositionRows(buf, pos, rows, perRow)) == UpTo(buf, pos, rows * perRow, 1)
    decreases rows
  {
    if rows == 0 {
      assert UpTo(buf, pos, 0, 1) == [];
    } else {
      var row := UpTo(buf, pos, perRow, 1);
      var r := PositionRows(buf, pos, rows, perRow);
      assert rows * perRow == perRow + (rows - 1) * perRow;
      UpToSplit(buf, pos, perRow, (rows - 1) * perRow, 1);
      if pos + |row| >= |buf| {
        assert r == [row];
        assert Flatten(r[1..]) == [];
        assert UpTo(buf, pos + |row|, (rows - 1) * perRow, 1) == [];
      } else {
        PositionRowsFlat(buf, pos + |row|, rows - 1, perRow);
        assert r[1..] == PositionRows(buf, pos + |row|, rows - 1, perRow);
      }
    }
  }

  /**
   * Between 1 and `rows` rows when there is a row to read, each of at most
   * `perRow` values, and every row but the last full.
   */
  lemma {:induction false} PositionRowsShape(buf: seq<byte>, pos: nat, rows: nat, perRow: nat)
    requires rows >= 1
    ensures var r := PositionRows(buf, pos, rows, perRow);
      && 1 <= |r| <= rows
      && (forall i | 0 <= i < |r| :: |r[i]| <= perRow)
      && (forall i | 0 <= i < |r| - 1 :: |r[i]| == perRow)
    decreases rows
  {
    var row := UpTo(buf, pos, perRow, 1);
    var r := PositionRows(buf, pos, rows, perRow);
    UpToLength(buf, pos, perRow, 1);
    if pos + |row| < |buf| && rows > 1 {
      var rest := PositionRows(buf, pos + |row|, rows - 1, perRow);
      PositionRowsShape(buf, pos + |row|, rows - 1, perRow);
      assert r == [row] + rest;
      assert forall i | 1 <= i < |r| :: |r[i]| == |rest[i - 1]|;
    }
  }

  /** The rows as a frame value, a list of lists (`number[][]`). */
  function Matrix(rows: seq<seq<Value>>): Value
  {
    List(seq(|rows|, i requires 0 <= i < |rows| => List(rows[i])))
  }

  /** One row of the nested loop: the row read at the cursor, then the rest from where it stopped. */
  lemma PositionRowsStep(buf: seq<byte>, pos: nat, rows: nat, perRow: nat, row: seq<Value>, next: nat)
    requires rows >= 1 && row == UpTo(buf, pos, perRow, 1) && next == pos + |row|
    ensures PositionRows(buf, pos, rows, perRow)
      == [row] + (if next >= |buf| then [] else PositionRows(buf, next, rows - 1, perRow))
  {
  }

  /** What one pass of the outer loop keeps: the rows so far, then the rest from the cursor. */
  lemma PositionRowsLoop(buf: seq<byte>, whole: seq<seq<Value>>, r: seq<seq<Value>>, offset: nat, left: nat, perRow: nat,
                         row: seq<Value>, next: nat)
    requires left >= 1 && whole == r + PositionRows(buf, offset, left, perRow)
    requires row == UpTo(buf, offset, perRow, 1) && next == offset + |row|
    ensures next >= |buf| ==> whole == r + [row]
    ensures next < |buf| ==> whole == (r + [row]) + PositionRows(buf, next, left - 1, perRow)
  {
    PositionRowsStep(buf, offset, left, perRow, row, next);
    if next < |buf| {
      var rest := PositionRows(buf, next, left - 1, perRow);
      AppendAssociates(r, [row], rest);
    } else {
      AppendEmpty([row]);
    }
  }

  /** The nested loop, pushing each row and breaking once the cursor reaches the end. */
  method ReadPositionRows(buf: seq<byte>, pos: nat, rows: nat, perRow: nat) returns (r: seq<seq<Value>>)
    ensures r == PositionRows(buf, pos, rows, perRow)
  {
    r := [];
    var offset: nat := pos;
    var lap := 0;
    while lap < rows
      invariant lap <= rows
      invariant PositionRows(buf, pos, rows, perRow) == r + PositionRows(buf, offset, rows - lap, perRow)
    {
      var row, next := ReadUpTo(buf, offset, perRow, 1);
      assert next == offset + |row|;
      PositionRowsLoop(buf, PositionRows(buf, pos, rows, perRow), r, offset, rows - lap, perRow, row, next);
      r := r + [row];
      if next >= |buf| {
        break;
      }
      offset := next;
      lap := lap + 1;
    }
  }
}
