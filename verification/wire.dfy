/**
 * Primitive reads over a received datagram, as done through a little-endian
 * DataView by every decoder: unsigned and two's-complement integers, byte
 * strings, NUL trimming, decimal rendering of a 64-bit id, and the bounded
 * UTF-16 string reader of the Assetto Corsa decoder.
 *
 * A read that falls outside the buffer is `None` (a DataView RangeError).
 */
module Wire {

  type byte = x: int | 0 <= x < 256
  type unit16 = x: int | 0 <= x < 0x1_0000

  datatype Option<T> = None | Some(value: T)

  /** The outcome of an operation that may throw; `Err` carries the error's message. */
  datatype Result<T> = Ok(value: T) | Err(error: string)

  function Pow256(n: nat): (p: nat)
    ensures p >= 1
  {
    if n == 0 then 1 else 256 * Pow256(n - 1)
  }

  /** The number whose little-endian encoding is `s` (s[0] least significant). */
  function LittleEndian(s: seq<byte>): nat
  {
    if s == [] then 0 else s[0] + 256 * LittleEndian(s[1..])
  }

  lemma {:induction false} LittleEndianBound(s: seq<byte>)
    ensures LittleEndian(s) < Pow256(|s|)
  {
    if s != [] {
      LittleEndianBound(s[1..]);
    }
  }

  /** The k-byte little-endian encoding of n (what a sender writes). */
  function LittleEndianBytes(n: nat, k: nat): (s: seq<byte>)
    requires n < Pow256(k)
    ensures |s| == k
  {
    if k == 0 then [] else [n % 256] + LittleEndianBytes(n / 256, k - 1)
  }

  /** Reading back an encoded number gives the number. */
  lemma {:induction false} LittleEndianRoundTrip(n: nat, k: nat)
    requires n < Pow256(k)
    ensures LittleEndian(LittleEndianBytes(n, k)) == n
  {
    if k > 0 {
      var s := LittleEndianBytes(n, k);
      assert n / 256 < Pow256(k - 1);
      LittleEndianRoundTrip(n / 256, k - 1);
      assert s[1..] == LittleEndianBytes(n / 256, k - 1);
    }
  }

  /** `getUintN(pos, true)`: the n bytes at pos, little-endian, or None past the end. */
  function Unsigned(buf: seq<byte>, pos: nat, n: nat): (r: Option<nat>)
    ensures r.Some? <==> pos + n <= |buf|
    ensures r.Some? ==> r.value < Pow256(n) && r.value == LittleEndian(buf[pos..pos + n])
  {
    if pos + n <= |buf| then
      LittleEndianBound(buf[pos..pos + n]);
      Some(LittleEndian(buf[pos..pos + n]))
    else None
  }

  /** Half the range of an n-byte value: the first negative two's-complement pattern. */
  function Half(n: nat): (h: nat)
    requires n >= 1
    ensures 2 * h == Pow256(n)
  {
    128 * Pow256(n - 1)
  }

  /** Two's-complement reading of an n-byte unsigned value (`getIntN`). */
  function Signed(u: nat, n: nat): int
    requires n >= 1 && u < Pow256(n)
  {
    if u < Half(n) then u else u - Pow256(n)
  }

  /** The reading is in the signed range and agrees with `u` modulo 256^n. */
  lemma SignedRange(u: nat, n: nat)
    requires n >= 1 && u < Pow256(n)
    ensures var v := Signed(u, n);
      -(Half(n) as int) <= v < Half(n)
      && (v >= 0 ==> v == u)
      && (v < 0 ==> v + Pow256(n) == u)
  {
  }

  /** `String.fromCharCode(...bytes)`: one character per byte, same code. */
  function Latin1(bytes: seq<byte>): string
  {
    seq(|bytes|, i requires 0 <= i < |bytes| => bytes[i] as char)
  }

  /** One character per byte, with the byte's code. */
  lemma Latin1Codes(bytes: seq<byte>)
    ensures var s := Latin1(bytes);
      |s| == |bytes| && forall i :: 0 <= i < |s| ==> s[i] as int == bytes[i]
  {
  }

  /** `s.replace(/\0+$/, '')`: drop the run of NUL characters at the end. */
  function TrimNuls(s: string): string
  {
    if s != [] && s[|s| - 1] == '\0' then TrimNuls(s[..|s| - 1]) else s
  }

  /**
   * The result is a prefix of `s` that does not end in NUL, and every
   * character dropped is a NUL.
   */
  lemma {:induction false} TrimNulsSpec(s: string)
    ensures var r := TrimNuls(s);
      |r| <= |s| && r == s[..|r|]
      && (r == [] || r[|r| - 1] != '\0')
      && forall i :: |r| <= i < |s| ==> s[i] == '\0'
  {
    if s != [] && s[|s| - 1] == '\0' {
      TrimNulsSpec(s[..|s| - 1]);
    }
  }

  function DigitChar(d: nat): (c: char)
    requires d < 10
    ensures '0' <= c <= '9' && c as int - '0' as int == d
  {
    ('0' as int + d) as char
  }

  /** Decimal rendering of a natural number (`BigInt.prototype.toString()`). */
  function Decimal(n: nat): (s: string)
    ensures |s| >= 1
    ensures forall i :: 0 <= i < |s| ==> '0' <= s[i] <= '9'
    ensures |s| > 1 ==> s[0] != '0'
  {
    if n < 10 then [DigitChar(n)] else Decimal(n / 10) + [DigitChar(n % 10)]
  }

  /** Reading a string of decimal digits back (the partner of `Decimal`). */
  function ParseDecimal(s: string): nat
    requires forall i :: 0 <= i < |s| ==> '0' <= s[i] <= '9'
  {
    if s == [] then 0 else 10 * ParseDecimal(s[..|s| - 1]) + (s[|s| - 1] as int - '0' as int)
  }

  /** `s` is the decimal rendering of `n`: digits only, reading back as `n`. */
  predicate DecimalOf(s: string, n: nat)
  {
    (forall i :: 0 <= i < |s| ==> '0' <= s[i] <= '9') && ParseDecimal(s) == n
  }

  lemma {:induction false} DecimalRoundTrip(n: nat)
    ensures DecimalOf(Decimal(n), n)
  {
    if n >= 10 {
      var s := Decimal(n);
      assert s[..|s| - 1] == Decimal(n / 10);
      DecimalRoundTrip(n / 10);
    }
  }

  /** Decimal rendering of an integer (a template literal `${n}`): a minus sign before negatives. */
  function IntString(n: int): string
  {
    if n < 0 then "-" + Decimal(-n) else Decimal(n)
  }

  /** Different naturals render differently: the rendering reads back as the number. */
  lemma DecimalInjective(m: nat, n: nat)
    requires Decimal(m) == Decimal(n)
    ensures m == n
  {
    DecimalRoundTrip(m);
    DecimalRoundTrip(n);
  }

  /** Different integers render differently. */
  lemma IntStringInjective(a: int, b: int)
    requires IntString(a) == IntString(b)
    ensures a == b
  {
    IntStringSign(a);
    IntStringSign(b);
    if a < 0 && b < 0 {
      DropPrefix("-", Decimal(-a));
      DropPrefix("-", Decimal(-b));
      DecimalInjective(-a, -b);
    } else if a >= 0 && b >= 0 {
      DecimalInjective(a, b);
    }
  }

  /** A rendering starts with a minus sign exactly for a negative number. */
  lemma IntStringSign(n: int)
    ensures IntString(n)[0] == '-' <==> n < 0
  {
    if n >= 0 {
      assert '0' <= Decimal(n)[0];
    }
  }

  /**
   * The UTF-16 units read by the loop of `decodeWideString`: at most `count`
   * units from pos, stopping before the first zero unit. `None` when a unit the
   * loop reaches lies outside the buffer (the thrown error).
   */
  function WideUnits(buf: seq<byte>, pos: nat, count: nat): Option<seq<unit16>>
    decreases count
  {
    if count == 0 then Some([])
    else
      var u := Unsigned(buf, pos, 2);
      if u.None? then None
      else if u.value == 0 then Some([])
      else
        var rest := WideUnits(buf, pos + 2, count - 1);
        if rest.None? then None else Some([u.value as unit16] + rest.value)
  }

  /** `decodeWideString(view, pos, maxLength)`: the units read, or '' on a failed read. */
  function WideString(buf: seq<byte>, pos: nat, maxLength: nat): seq<unit16>
  {
    var r := WideUnits(buf, pos, maxLength);
    if r.None? then [] else r.value
  }

  /** Dropping a prefix gives back what followed it. */
  lemma DropPrefix<T>(p: seq<T>, x: seq<T>)
    ensures (p + x)[|p|..] == x
  {
  }

  /** Concatenation regroups freely; stated for any element type so that no element is inspected. */
  lemma AppendAssociates<T>(a: seq<T>, b: seq<T>, c: seq<T>)
    ensures a + (b + c) == (a + b) + c
  {
  }

  lemma AppendEmpty<T>(a: seq<T>)
    ensures a + [] == a && [] + a == a
  {
  }

  /** What a read loop that has kept `chars` and still has `rest` to come will return. */
  function Prefixed(chars: seq<unit16>, rest: Option<seq<unit16>>): Option<seq<unit16>>
  {
    if rest.None? then None else Some(chars + rest.value)
  }

  /**
   * The loop of `decodeWideString`: up to `maxLength` units, leaving at the
   * first zero unit, and '' (not the units so far) when a read throws.
   */
  method DecodeWideString(buf: seq<byte>, pos: nat, maxLength: nat) returns (s: seq<unit16>)
    ensures s == WideString(buf, pos, maxLength)
    ensures |s| <= maxLength && forall i :: 0 <= i < |s| ==> s[i] != 0
  {
    var chars: seq<unit16> := [];
    var i := 0;
    var all := WideUnits(buf, pos, maxLength);
    if all.Some? {
      AppendEmpty(all.value);
    }
    while i < maxLength
      invariant i <= maxLength && |chars| == i
      invariant WideUnits(buf, pos, maxLength) == Prefixed(chars, WideUnits(buf, pos + 2 * i, maxLength - i))
      invariant forall j :: 0 <= j < |chars| ==> chars[j] != 0
    {
      var c := Unsigned(buf, pos + 2 * i, 2);
      if c.None? {
        return [];
      }
      if c.value == 0 {
        break;
      }
      assert pos + 2 * (i + 1) == pos + 2 * i + 2;
      var rest := WideUnits(buf, pos + 2 * (i + 1), maxLength - (i + 1));
      assert WideUnits(buf, pos + 2 * i, maxLength - i) == Prefixed([c.value as unit16], rest);
      if rest.Some? {
        AppendAssociates(chars, [c.value as unit16], rest.value);
      }
      chars := chars + [c.value as unit16];
      i := i + 1;
    }
    return chars;
  }

  /** At most `count` units come back, none of them zero. */
  lemma {:induction false} WideUnitsShape(buf: seq<byte>, pos: nat, count: nat)
    requires WideUnits(buf, pos, count).Some?
    ensures var s := WideUnits(buf, pos, count).value;
      |s| <= count && forall i :: 0 <= i < |s| ==> s[i] != 0
    decreases count
  {
    if count > 0 {
      var u := Unsigned(buf, pos, 2).value;
      if u != 0 {
        WideUnitsShape(buf, pos + 2, count - 1);
      }
    }
  }

  /**
   * What the loop returns: the units are the wire units in order, and the loop
   * stopped either after `count` units or on a readable zero unit.
   */
  lemma {:induction false} WideUnitsSpec(buf: seq<byte>, pos: nat, count: nat)
    requires WideUnits(buf, pos, count).Some?
    ensures var s := WideUnits(buf, pos, count).value;
      (forall i :: 0 <= i < |s| ==> Unsigned(buf, pos + 2 * i, 2) == Some(s[i] as nat))
      && (|s| == count || Unsigned(buf, pos + 2 * |s|, 2) == Some(0))
    decreases count
  {
    if count > 0 {
      var u := Unsigned(buf, pos, 2).value;
      if u != 0 {
        WideUnitsSpec(buf, pos + 2, count - 1);
        var rest := WideUnits(buf, pos + 2, count - 1).value;
        var s := WideUnits(buf, pos, count).value;
        assert s == [u as unit16] + rest;
        forall i | 0 <= i < |s| ensures Unsigned(buf, pos + 2 * i, 2) == Some(s[i] as nat) {
          if i > 0 {
            assert s[i] == rest[i - 1];
            assert pos + 2 * i == (pos + 2) + 2 * (i - 1);
          }
        }
        assert pos + 2 * |s| == (pos + 2) + 2 * |rest|;
      }
    }
  }

  /** A read failure yields '' only when some unit before the terminator is out of range. */
  lemma {:induction false} WideUnitsFailure(buf: seq<byte>, pos: nat, count: nat)
    requires WideUnits(buf, pos, count).None?
    ensures count > 0 && pos + 2 * count > |buf|
    decreases count
  {
    if Unsigned(buf, pos, 2).Some? {
      WideUnitsFailure(buf, pos + 2, count - 1);
    }
  }

  /** Within the buffer the reader never fails: the whole `2 * count` window is readable. */
  lemma {:induction false} WideUnitsInBounds(buf: seq<byte>, pos: nat, count: nat)
    requires pos + 2 * count <= |buf|
    ensures WideUnits(buf, pos, count).Some?
  {
    if WideUnits(buf, pos, count).None? {
      WideUnitsFailure(buf, pos, count);
    }
  }

  /** The reader looks only at the `2 * count` bytes of its field. */
  lemma {:induction false} WideUnitsWindow(b1: seq<byte>, p1: nat, b2: seq<byte>, p2: nat, count: nat)
    requires p1 + 2 * count <= |b1| && p2 + 2 * count <= |b2|
    requires b1[p1..p1 + 2 * count] == b2[p2..p2 + 2 * count]
    ensures WideUnits(b1, p1, count) == WideUnits(b2, p2, count)
    decreases count
  {
    if count > 0 {
      assert b1[p1..p1 + 2] == b1[p1..p1 + 2 * count][..2];
      assert b2[p2..p2 + 2] == b2[p2..p2 + 2 * count][..2];
      assert b1[p1 + 2..p1 + 2 + 2 * (count - 1)] == b1[p1..p1 + 2 * count][2..];
      assert b2[p2 + 2..p2 + 2 + 2 * (count - 1)] == b2[p2..p2 + 2 * count][2..];
      WideUnitsWindow(b1, p1 + 2, b2, p2 + 2, count - 1);
    }
  }
}
