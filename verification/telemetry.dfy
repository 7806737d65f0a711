/**
 * The telemetry store behind the dashboard: per-packet-type buffers of
 * decoded frames, queues of frames not yet drawn, holding buffers that
 * collect frames while the display is paused, retention trimming, and the
 * one-second window of packet-size errors.
 *
 * The wall clock, the retention setting, the current decoder's accepted
 * sizes and the decoder's output are parameters. How a field value reads as
 * a number (JavaScript's `ToNumber`) is the `toNumber` of a `TimeField`;
 * `None` stands for NaN, with which every comparison is false.
 */
module Telemetry {
  import opened Wire
  import opened Frames

  // ---------------------------------------------------------------------
  // Frames, keys and times

  /** A buffer key: a frame's `packet_type`, or `None` when it has none. */
  type PacketKey = Option<Value>

  function PacketKeyOf(f: Frame): PacketKey
  {
    Lookup(f, "packet_type")
  }

  /** The configured time field and how its values read as numbers. */
  datatype TimeField = TimeField(field: string, toNumber: Value -> Option<real>)

  /** `frame[timeField] as number`, read where it is compared: a missing field is NaN. */
  function TimeOf(f: Frame, tf: TimeField): Option<real>
  {
    if tf.field in f then tf.toNumber(f[tf.field]) else None
  }

  /** The elements of `s` that satisfy `p`, in order: `Array.prototype.filter`. */
  function Filter<T>(s: seq<T>, p: T -> bool): (r: seq<T>)
    ensures |r| <= |s|
  {
    if s == [] then []
    else if p(s[0]) then [s[0]] + Filter(s[1..], p)
    else Filter(s[1..], p)
  }

  /** The sequence stored under `k`, or `[]` when there is none. */
  function Get<K, T>(m: map<K, seq<T>>, k: K): seq<T>
  {
    if k in m then m[k] else []
  }

  /** The counter stored under `k`, or 0 when there is none. */
  function Count<K>(m: map<K, int>, k: K): int
  {
    if k in m then m[k] else 0
  }

  // ---------------------------------------------------------------------
  // Retention

  /** Frames that are at least as late as the cutoff; nothing is when either time is NaN. */
  predicate AtOrAfter(f: Frame, cutoff: Option<real>, tf: TimeField)
  {
    cutoff.Some? && TimeOf(f, tf).Some? && TimeOf(f, tf).value >= cutoff.value
  }

  /** `currentTime - maxRetentionSeconds`. */
  function Cutoff(current: Option<real>, maxRetention: real): Option<real>
  {
    if current.None? then None else Some(current.value - maxRetention)
  }

  /** The index of the first frame from `i` on at or after the cutoff, or 0 when there is none. */
  function FirstKept(b: seq<Frame>, cutoff: Option<real>, tf: TimeField, i: nat): nat
    decreases |b| - i
  {
    if i >= |b| then 0
    else if AtOrAfter(b[i], cutoff, tf) then i
    else FirstKept(b, cutoff, tf, i + 1)
  }

  /** `keepIndex`: the first frame at or after the cutoff, or 0 when no frame is. */
  function KeepIndex(b: seq<Frame>, cutoff: Option<real>, tf: TimeField): nat
  {
    FirstKept(b, cutoff, tf, 0)
  }

  /**
   * Retention on a buffer of at least 100 frames: the frames before the first
   * one at or after `current - maxRetention` are dropped.
   */
  function Retained(b: seq<Frame>, current: Option<real>, maxRetention: real, tf: TimeField): (r: seq<Frame>)
    ensures |r| <= |b|
  {
    if |b| >= 100 then
      KeepIndexSpec(b, Cutoff(current, maxRetention), tf);
      b[KeepIndex(b, Cutoff(current, maxRetention), tf)..]
    else b
  }

  /** The search loop for `keepIndex`, with its early `break`. */
  method FindKeepIndex(b: seq<Frame>, cutoff: Option<real>, tf: TimeField) returns (keepIndex: nat)
    ensures keepIndex == KeepIndex(b, cutoff, tf)
  {
    keepIndex := 0;
    var i := 0;
    while i < |b|
      invariant 0 <= i <= |b|
      invariant KeepIndex(b, cutoff, tf) == FirstKept(b, cutoff, tf, i)
      decreases |b| - i
    {
      if AtOrAfter(b[i], cutoff, tf) {
        keepIndex := i;
        return;
      }
      i := i + 1;
    }
  }

  /** The retention step on a buffer of at least 100 frames, through the search loop. */
  method Retain(b: seq<Frame>, current: Option<real>, maxRetention: real, tf: TimeField) returns (r: seq<Frame>)
    ensures r == Retained(b, current, maxRetention, tf)
  {
    r := b;
    if |b| >= 100 {
      var keepIndex := FindKeepIndex(b, Cutoff(current, maxRetention), tf);
      KeepIndexSpec(b, Cutoff(current, maxRetention), tf);
      if keepIndex > 0 {
        r := b[keepIndex..];
      }
    }
  }

  /**
   * A frame arriving at a buffer with its trim counter: the frame is
   * appended and the counter incremented; at 100 with more than one frame
   * the counter restarts and retention runs, cut at the new frame's time.
   */
  function Arrive(b: seq<Frame>, counter: int, f: Frame, maxRetention: real, tf: TimeField): (seq<Frame>, int)
  {
    var b', c := b + [f], counter + 1;
    if c >= 100 && |b'| > 1 then (Retained(b', TimeOf(f, tf), maxRetention, tf), 0) else (b', c)
  }

  // ---------------------------------------------------------------------
  // Sorting by time

  /** `timeA - timeB > 0`: a NaN difference compares as equal. */
  predicate Later(a: Frame, b: Frame, tf: TimeField)
  {
    TimeOf(a, tf).Some? && TimeOf(b, tf).Some? && TimeOf(a, tf).value > TimeOf(b, tf).value
  }

  /** Inserting a frame into a sorted run: it goes after every frame that is not later than it. */
  function Insert(s: seq<Frame>, x: Frame, tf: TimeField): (r: seq<Frame>)
    ensures |r| == |s| + 1
  {
    if s == [] then [x]
    else if Later(s[|s| - 1], x, tf) then Insert(s[..|s| - 1], x, tf) + [s[|s| - 1]]
    else s + [x]
  }

  /** A stable insertion sort with the comparator `timeA - timeB`. */
  function SortByTime(s: seq<Frame>, tf: TimeField): (r: seq<Frame>)
    ensures |r| == |s|
  {
    if s == [] then [] else Insert(SortByTime(s[..|s| - 1], tf), s[|s| - 1], tf)
  }

  /** Every frame has a numeric time. */
  predicate Timed(s: seq<Frame>, tf: TimeField)
  {
    forall f | f in s :: TimeOf(f, tf).Some?
  }

  /** No frame is later than a frame after it. */
  predicate SortedByTime(s: seq<Frame>, tf: TimeField)
  {
    forall i, j | 0 <= i < j < |s| :: !Later(s[i], s[j], tf)
  }

  // ---------------------------------------------------------------------
  // The store

  /** One packet-size error: when it was seen and the size that was refused. */
  datatype SizeError = SizeError(timestamp: int, size: int)

  /** The refs and the state of the telemetry provider that the handlers change. */
  datatype Store = Store(
    buffers: map<PacketKey, seq<Frame>>,
    queues: map<PacketKey, seq<Frame>>,
    trimCounters: map<PacketKey, int>,
    holdingBuffers: map<PacketKey, seq<Frame>>,
    holdingTrimCounters: map<PacketKey, int>,
    isPaused: bool,
    resetSignal: int,
    packetSizeErrors: seq<SizeError>,
    hasPacketErrors: bool)

  /** The provider's state when it mounts. */
  function Initial(): Store
  {
    Store(map[], map[], map[], map[], map[], false, 0, [], false)
  }

  /** Errors seen less than a second before `now`. */
  function Recent(errors: seq<SizeError>, now: int): seq<SizeError>
  {
    Filter(errors, WithinSecond(now))
  }

  function WithinSecond(now: int): SizeError -> bool
  {
    (e: SizeError) => now - e.timestamp < 1000
  }

  /**
   * `validatePacketSize`: without a decoder or a size list every packet is
   * valid; an invalid size is logged at `now`, the log is cut to the last
   * second, and the error flag says whether the log is non-empty.
   */
  function Validated(s: Store, size: int, accepted: Option<seq<int>>, now: int): (Store, bool)
  {
    if accepted.None? then (s, true)
    else if size in accepted.value then (s, true)
    else
      var errors := Recent(s.packetSizeErrors + [SizeError(now, size)], now);
      (s.(packetSizeErrors := errors, hasPacketErrors := |errors| > 0), false)
  }

  /** The periodic sweep of the error log. */
  function Swept(s: Store, now: int): Store
  {
    var errors := Recent(s.packetSizeErrors, now);
    s.(packetSizeErrors := errors, hasPacketErrors := |errors| > 0)
  }

  /**
   * The routing body of `onmessage` for a frame: while paused, into the
   * holding buffer of its type; otherwise into the buffer and the queue of
   * its type; each with its own trim counter.
   */
  function Route(s: Store, f: Frame, maxRetention: real, tf: TimeField): Store
  {
    var pt := PacketKeyOf(f);
    if s.isPaused then
      var (hb, hc) := Arrive(Get(s.holdingBuffers, pt), Count(s.holdingTrimCounters, pt), f, maxRetention, tf);
      s.(holdingBuffers := s.holdingBuffers[pt := hb], holdingTrimCounters := s.holdingTrimCounters[pt := hc])
    else
      var (b, c) := Arrive(Get(s.buffers, pt), Count(s.trimCounters, pt), f, maxRetention, tf);
      s.(buffers := s.buffers[pt := b], queues := s.queues[pt := Get(s.queues, pt) + [f]],
         trimCounters := s.trimCounters[pt := c])
  }

  /** A null frame (a dropped packet) is skipped. */
  function Received(s: Store, frame: Option<Frame>, maxRetention: real, tf: TimeField): (r: Store)
    ensures frame.None? ==> r == s
  {
    if frame.None? then s else Route(s, frame.value, maxRetention, tf)
  }

  /** A binary message: the size check, then the decoder's frame whatever the check said. */
  function AfterBinaryMessage(s: Store, size: int, accepted: Option<seq<int>>, now: int,
                           decoded: Option<Frame>, maxRetention: real, tf: TimeField): Store
  {
    Received(Validated(s, size, accepted, now).0, decoded, maxRetention, tf)
  }

  /** `min(sec, maxRetention)`. */
  function Min(a: real, b: real): real
  {
    if a <= b then a else b
  }

  /** Whether a frame is in the window that ends at `now`. */
  predicate InWindow(f: Frame, now: Option<real>, window: real, tf: TimeField)
  {
    now.Some? && TimeOf(f, tf).Some? && now.value - TimeOf(f, tf).value <= window
  }

  /** The time of the last frame, for `getSlice`: a missing field reads as 0. */
  function SliceEnd(last: Frame, tf: TimeField): Option<real>
  {
    if tf.field in last then tf.toNumber(last[tf.field]) else Some(0.0)
  }

  /**
   * `getSlice(sec, pt)`: the frames of `pt` whose time is within
   * `min(sec, maxRetention)` of the last frame's.
   */
  function Slice(s: Store, sec: real, pt: PacketKey, maxRetention: real, tf: TimeField): seq<Frame>
  {
    var b := Get(s.buffers, pt);
    if |b| == 0 then []
    else
      var now, window := SliceEnd(b[|b| - 1], tf), Min(sec, maxRetention);
      Filter(b, WindowTest(now, window, tf))
  }

  function WindowTest(now: Option<real>, window: real, tf: TimeField): Frame -> bool
  {
    (f: Frame) => InWindow(f, now, window, tf)
  }

  /** `getQueued(pt)`: the queue's frames, and the queue left empty. */
  function Queued(s: Store, pt: PacketKey): (Store, seq<Frame>)
  {
    if pt !in s.queues then (s, []) else (s.(queues := s.queues[pt := []]), s.queues[pt])
  }

  /** `getLatestFrame(pt)`: the last frame of that type's buffer. */
  function LatestOf(s: Store, pt: PacketKey): (r: Option<Frame>)
    ensures r.Some? <==> |Get(s.buffers, pt)| > 0
    ensures r.Some? ==> r.value == Get(s.buffers, pt)[|Get(s.buffers, pt)| - 1]
  {
    var b := Get(s.buffers, pt);
    if |b| > 0 then Some(b[|b| - 1]) else None
  }

  /** The last frame of a buffer, if it is non-empty. */
  function LastOf(b: seq<Frame>): Option<Frame>
  {
    if |b| > 0 then Some(b[|b| - 1]) else None
  }

  /**
   * `getLatestFrame()` over the buffers in the map's iteration order `order`:
   * the first last-frame whose time beats every earlier one, starting from -1.
   */
  function LatestFrom(buffers: map<PacketKey, seq<Frame>>, order: seq<PacketKey>, tf: TimeField,
                      best: Option<Frame>, bestTime: real): Option<Frame>
    decreases |order|
  {
    if order == [] then best
    else
      var last := LastOf(Get(buffers, order[0]));
      if last.Some? && TimeOf(last.value, tf).Some? && TimeOf(last.value, tf).value > bestTime then
        LatestFrom(buffers, order[1..], tf, last, TimeOf(last.value, tf).value)
      else LatestFrom(buffers, order[1..], tf, best, bestTime)
  }

  /** The keys whose holding buffer is not empty: those a resume merges. */
  function HeldKeys(s: Store): set<PacketKey>
  {
    set k | k in s.holdingBuffers && |s.holdingBuffers[k]| > 0
  }

  /** A buffer after a resume: the holding frames appended, sorted by time, then retention. */
  function Merged(main: seq<Frame>, held: seq<Frame>, maxRetention: real, tf: TimeField): seq<Frame>
  {
    var b := SortByTime(main + held, tf);
    Retained(b, if |b| > 0 then TimeOf(b[|b| - 1], tf) else None, maxRetention, tf)
  }

  /**
   * `togglePause`: pausing only sets the flag; resuming merges every
   * non-empty holding buffer into its main buffer, creates the missing
   * queue and counter, clears the holding maps and bumps the reset signal.
   */
  function Toggled(s: Store, maxRetention: real, tf: TimeField): Store
  {
    if !s.isPaused then s.(isPaused := true)
    else
      var held := HeldKeys(s);
      s.(buffers := MergedUpTo(s, held, maxRetention, tf),
         queues := map k | k in s.queues.Keys + held :: Get(s.queues, k),
         trimCounters := map k | k in s.trimCounters.Keys + held :: Count(s.trimCounters, k),
         holdingBuffers := map[], holdingTrimCounters := map[],
         isPaused := false, resetSignal := s.resetSignal + 1)
  }

  /** The main buffers once the holding buffers of the keys in `done` are merged. */
  function MergedUpTo(s: Store, done: set<PacketKey>, maxRetention: real, tf: TimeField): map<PacketKey, seq<Frame>>
    requires done <= s.holdingBuffers.Keys
  {
    map k | k in s.buffers.Keys + done ::
      if k in done then Merged(Get(s.buffers, k), s.holdingBuffers[k], maxRetention, tf) else s.buffers[k]
  }

  /** The frames grouped by packet type, each group in input order. */
  function GroupBy(frames: seq<Frame>): map<PacketKey, seq<Frame>>
  {
    if frames == [] then map[]
    else
      var g, f := GroupBy(frames[..|frames| - 1]), frames[|frames| - 1];
      g[PacketKeyOf(f) := Get(g, PacketKeyOf(f)) + [f]]
  }

  /**
   * `replaceBuffer(frames, pt)`: with a type, that buffer becomes `frames`
   * and its queue empties; without one, every main map is rebuilt from the
   * frames grouped by type. Either way the reset signal is bumped.
   */
  function Replaced(s: Store, frames: seq<Frame>, pt: Option<PacketKey>): Store
  {
    if pt.Some? then
      s.(buffers := s.buffers[pt.value := frames], queues := s.queues[pt.value := []],
         resetSignal := s.resetSignal + 1)
    else
      var g := GroupBy(frames);
      s.(buffers := g, queues := map k | k in g :: [], trimCounters := map k | k in g :: 0,
         resetSignal := s.resetSignal + 1)
  }

  /** `clearAll`: every buffer, queue and counter map empties and the reset signal is bumped. */
  function Cleared(s: Store): Store
  {
    s.(buffers := map[], queues := map[], trimCounters := map[], holdingBuffers := map[],
       holdingTrimCounters := map[], resetSignal := s.resetSignal + 1)
  }

  /** The error flag says whether the error log is non-empty. */
  predicate ErrorFlagAgrees(s: Store)
  {
    s.hasPacketErrors <==> |s.packetSizeErrors| > 0
  }

  /**
   * What every handler keeps: the error flag agrees with the log, every
   * buffer has a queue, the holding maps have the same keys, and nothing is
   * held while the display is live.
   */
  predicate Consistent(s: Store)
  {
    && ErrorFlagAgrees(s)
    && s.buffers.Keys <= s.queues.Keys
    && s.holdingBuffers.Keys == s.holdingTrimCounters.Keys
    && (!s.isPaused ==> s.holdingBuffers == map[])
  }

  // ---------------------------------------------------------------------
  // Properties of filtering and retention

  /** Sequence `r` is a suffix of `s`. */
  predicate SuffixOf<T(==)>(r: seq<T>, s: seq<T>)
  {
    |r| <= |s| && r == s[|s| - |r|..]
  }

  lemma {:induction false} FilterSpec<T>(s: seq<T>, p: T -> bool)
    ensures forall x :: x in Filter(s, p) <==> x in s && p(x)
    decreases |s|
  {
    if s != [] {
      FilterSpec(s[1..], p);
      assert forall x :: x in s <==> x == s[0] || x in s[1..];
    }
  }

  lemma {:induction false} FilterSnoc<T>(s: seq<T>, x: T, p: T -> bool)
    ensures Filter(s + [x], p) == Filter(s, p) + (if p(x) then [x] else [])
    decreases |s|
  {
    if s != [] {
      assert (s + [x])[1..] == s[1..] + [x];
      FilterSnoc(s[1..], x, p);
    }
  }

  lemma {:induction false} FirstKeptSpec(b: seq<Frame>, cutoff: Option<real>, tf: TimeField, i: nat)
    ensures var k := FirstKept(b, cutoff, tf, i);
      && (k == 0 || i <= k < |b|)
      && (forall j | i <= j < k :: !AtOrAfter(b[j], cutoff, tf))
      && (k > 0 ==> AtOrAfter(b[k], cutoff, tf))
      && (k == 0 ==> (i == 0 && 0 < |b| && AtOrAfter(b[0], cutoff, tf))
                     || (forall j | i <= j < |b| :: !AtOrAfter(b[j], cutoff, tf)))
    decreases |b| - i
  {
    if i < |b| && !AtOrAfter(b[i], cutoff, tf) {
      FirstKeptSpec(b, cutoff, tf, i + 1);
    }
  }

  /**
   * `keepIndex` is the first frame at or after the cutoff; it is 0 only
   * when that is the first frame or when no frame is at or after the cutoff.
   */
  lemma KeepIndexSpec(b: seq<Frame>, cutoff: Option<real>, tf: TimeField)
    ensures var k := KeepIndex(b, cutoff, tf);
      || (k < |b| && AtOrAfter(b[k], cutoff, tf) && forall j | 0 <= j < k :: !AtOrAfter(b[j], cutoff, tf))
      || (k == 0 && forall j | 0 <= j < |b| :: !AtOrAfter(b[j], cutoff, tf))
  {
    FirstKeptSpec(b, cutoff, tf, 0);
  }

  /**
   * Retention keeps a suffix that still ends with the newest frame; it only
   * drops frames before the cutoff, never touches a buffer under 100 frames,
   * and on a larger one starts at the first frame at or after the cutoff
   * (or keeps everything when none is).
   */
  lemma RetainedSpec(b: seq<Frame>, current: Option<real>, maxRetention: real, tf: TimeField)
    ensures var r, cutoff := Retained(b, current, maxRetention, tf), Cutoff(current, maxRetention);
      && SuffixOf(r, b)
      && (|b| < 100 ==> r == b)
      && (|b| > 0 ==> |r| > 0 && r[|r| - 1] == b[|b| - 1])
      && (forall j | 0 <= j < |b| - |r| :: !AtOrAfter(b[j], cutoff, tf))
      && (|b| >= 100 ==> AtOrAfter(r[0], cutoff, tf)
                         || (r == b && forall j | 0 <= j < |b| :: !AtOrAfter(b[j], cutoff, tf)))
  {
    KeepIndexSpec(b, Cutoff(current, maxRetention), tf);
  }

  /**
   * An arriving frame is kept as the newest of its buffer, which is a suffix
   * of the old buffer plus the frame. The counter restarts at 0 once it
   * reaches 100 with a buffer of more than one frame, and otherwise counts the
   * frame; nothing is dropped before that or while the buffer is under 100
   * frames.
   */
  lemma ArriveSpec(b: seq<Frame>, counter: int, f: Frame, maxRetention: real, tf: TimeField)
    ensures var (b', c) := Arrive(b, counter, f, maxRetention, tf);
      && SuffixOf(b', b + [f])
      && |b'| > 0 && b'[|b'| - 1] == f
      && (counter + 1 >= 100 && |b| > 0 ==> c == 0)
      && (counter + 1 < 100 || |b| == 0 ==> b' == b + [f] && c == counter + 1)
      && (|b| + 1 < 100 ==> b' == b + [f])
  {
    RetainedSpec(b + [f], TimeOf(f, tf), maxRetention, tf);
  }

  // ---------------------------------------------------------------------
  // Properties of the merge sort on resume

  lemma SortedSnoc(r: seq<Frame>, y: Frame, tf: TimeField)
    requires SortedByTime(r, tf)
    requires forall i | 0 <= i < |r| :: !Later(r[i], y, tf)
    ensures SortedByTime(r + [y], tf)
  {
  }

  /** Inserting adds exactly the frame and keeps a timed run sorted. */
  lemma {:induction false} InsertSpec(s: seq<Frame>, x: Frame, tf: TimeField)
    ensures multiset(Insert(s, x, tf)) == multiset(s) + multiset{x}
    ensures Timed(s + [x], tf) && SortedByTime(s, tf) ==> SortedByTime(Insert(s, x, tf), tf)
    decreases |s|
  {
    if s != [] {
      var init, last := s[..|s| - 1], s[|s| - 1];
      assert s == init + [last];
      if Later(last, x, tf) {
        InsertSpec(init, x, tf);
        var r := Insert(init, x, tf);
        if Timed(s + [x], tf) && SortedByTime(s, tf) {
          assert Timed(init + [x], tf) by {
            forall f | f in init + [x] ensures TimeOf(f, tf).Some? {
              assert f in s + [x];
            }
          }
          forall i | 0 <= i < |r| ensures !Later(r[i], last, tf) {
            assert r[i] in multiset(r);
            if r[i] != x {
              assert r[i] in init;
              var m :| 0 <= m < |init| && init[m] == r[i];
              assert s[m] == init[m];
            }
          }
          SortedSnoc(r, last, tf);
        }
      } else if Timed(s + [x], tf) && SortedByTime(s, tf) {
        forall i | 0 <= i < |s| ensures !Later(s[i], x, tf) {
          assert s[i] in s + [x] && last in s + [x] && x in s + [x];
        }
        SortedSnoc(s, x, tf);
      }
    }
  }

  /** Sorting by time is a permutation, and sorts a buffer whose frames all have times. */
  lemma {:induction false} SortSpec(s: seq<Frame>, tf: TimeField)
    ensures multiset(SortByTime(s, tf)) == multiset(s)
    ensures Timed(s, tf) ==> SortedByTime(SortByTime(s, tf), tf)
    decreases |s|
  {
    if s != [] {
      var init, last := s[..|s| - 1], s[|s| - 1];
      assert s == init + [last];
      SortSpec(init, tf);
      var r := SortByTime(init, tf);
      InsertSpec(r, last, tf);
      if Timed(s, tf) {
        assert Timed(r + [last], tf) by {
          forall f | f in r + [last] ensures TimeOf(f, tf).Some? {
            if f != last {
              assert f in multiset(r);
              assert f in init;
            }
          }
        }
      }
    }
  }

  /**
   * A resumed buffer holds only frames of the main and holding buffers, all
   * of them while the total is under 100, at least one when frames were
   * held, and in time order when every frame has a time.
   */
  lemma MergedSpec(main: seq<Frame>, held: seq<Frame>, maxRetention: real, tf: TimeField)
    ensures var r := Merged(main, held, maxRetention, tf);
      && multiset(r) <= multiset(main + held)
      && (|main + held| < 100 ==> multiset(r) == multiset(main + held))
      && (|held| > 0 ==> |r| > 0)
      && (Timed(main + held, tf) ==> SortedByTime(r, tf))
  {
    var b := SortByTime(main + held, tf);
    SortSpec(main + held, tf);
    RetainedSpec(b, if |b| > 0 then TimeOf(b[|b| - 1], tf) else None, maxRetention, tf);
    SuffixKeeps(Merged(main, held, maxRetention, tf), b, tf);
  }

  lemma SuffixKeeps(r: seq<Frame>, b: seq<Frame>, tf: TimeField)
    requires SuffixOf(r, b)
    ensures multiset(r) <= multiset(b)
    ensures SortedByTime(b, tf) ==> SortedByTime(r, tf)
  {
    var d := |b| - |r|;
    assert b == b[..d] + r;
    forall i, j | 0 <= i < j < |r| ensures r[i] == b[d + i] && r[j] == b[d + j] {
    }
  }

  // ---------------------------------------------------------------------
  // Properties of the store

  /** Every handler keeps the store consistent. */
  lemma ConsistentKept(s: Store, f: Frame, pt: PacketKey, frames: seq<Frame>, target: Option<PacketKey>,
                       size: int, accepted: Option<seq<int>>, now: int, maxRetention: real, tf: TimeField)
    requires Consistent(s)
    ensures Consistent(Validated(s, size, accepted, now).0)
    ensures Consistent(Swept(s, now))
    ensures Consistent(Route(s, f, maxRetention, tf))
    ensures Consistent(Queued(s, pt).0)
    ensures Consistent(Toggled(s, maxRetention, tf))
    ensures Consistent(Replaced(s, frames, target))
    ensures Consistent(Cleared(s))
  {
    ConsistentKeptByMessages(s, f, pt, size, accepted, now, maxRetention, tf);
    ConsistentKeptByResets(s, frames, target, maxRetention, tf);
  }

  lemma ConsistentKeptByMessages(s: Store, f: Frame, pt: PacketKey, size: int, accepted: Option<seq<int>>,
                                 now: int, maxRetention: real, tf: TimeField)
    requires Consistent(s)
    ensures Consistent(Validated(s, size, accepted, now).0)
    ensures Consistent(Swept(s, now))
    ensures Consistent(Route(s, f, maxRetention, tf))
    ensures Consistent(Queued(s, pt).0)
  {
  }

  lemma ConsistentKeptByResets(s: Store, frames: seq<Frame>, target: Option<PacketKey>, maxRetention: real, tf: TimeField)
    requires Consistent(s)
    ensures Consistent(Toggled(s, maxRetention, tf))
    ensures Consistent(Replaced(s, frames, target))
    ensures Consistent(Cleared(s))
  {
    ConsistentToggled(s, maxRetention, tf);
  }

  lemma ConsistentToggled(s: Store, maxRetention: real, tf: TimeField)
    requires Consistent(s)
    ensures Consistent(Toggled(s, maxRetention, tf))
  {
  }

  /**
   * The size check: a packet passes when there is no size list or its size
   * is listed, and then nothing changes; a refused size is logged at `now`,
   * the log keeps exactly the errors of the last second, and the flag is
   * raised. Only the log and the flag ever change.
   */
  lemma ValidatedSpec(s: Store, size: int, accepted: Option<seq<int>>, now: int)
    ensures var (r, ok) := Validated(s, size, accepted, now);
      && (ok <==> accepted.None? || size in accepted.value)
      && (ok ==> r == s)
      && r == s.(packetSizeErrors := r.packetSizeErrors, hasPacketErrors := r.hasPacketErrors)
      && (!ok ==> r.hasPacketErrors && ErrorFlagAgrees(r) && SizeError(now, size) in r.packetSizeErrors)
      && (!ok ==> forall e :: e in r.packetSizeErrors <==>
                    (e in s.packetSizeErrors || e == SizeError(now, size)) && now - e.timestamp < 1000)
  {
    if accepted.Some? && size !in accepted.value {
      var e := SizeError(now, size);
      FilterSpec(s.packetSizeErrors + [e], WithinSecond(now));
      assert WithinSecond(now)(e) && e in s.packetSizeErrors + [e];
    }
  }

  /** The sweep keeps exactly the errors of the last second and sets the flag from them. */
  lemma SweptSpec(s: Store, now: int)
    ensures var r := Swept(s, now);
      && ErrorFlagAgrees(r)
      && r == s.(packetSizeErrors := r.packetSizeErrors, hasPacketErrors := r.hasPacketErrors)
      && forall e :: e in r.packetSizeErrors <==> e in s.packetSizeErrors && now - e.timestamp < 1000
  {
    FilterSpec(s.packetSizeErrors, WithinSecond(now));
  }

  /**
   * Routing a frame: while paused only its holding buffer changes; otherwise
   * its buffer ends with it, its queue gets it appended, and no other
   * buffer, queue, flag or log changes.
   */
  lemma RouteSpec(s: Store, f: Frame, maxRetention: real, tf: TimeField)
    ensures var r, pt := Route(s, f, maxRetention, tf), PacketKeyOf(f);
      && r.isPaused == s.isPaused && r.resetSignal == s.resetSignal
      && r.packetSizeErrors == s.packetSizeErrors && r.hasPacketErrors == s.hasPacketErrors
      && (s.isPaused ==>
            && r.buffers == s.buffers && r.queues == s.queues && r.trimCounters == s.trimCounters
            && pt in r.holdingBuffers && r.holdingBuffers == s.holdingBuffers[pt := r.holdingBuffers[pt]]
            && SuffixOf(r.holdingBuffers[pt], Get(s.holdingBuffers, pt) + [f])
            && LastOf(r.holdingBuffers[pt]) == Some(f))
      && (!s.isPaused ==>
            && r.holdingBuffers == s.holdingBuffers && r.holdingTrimCounters == s.holdingTrimCounters
            && pt in r.buffers && r.buffers == s.buffers[pt := r.buffers[pt]]
            && SuffixOf(r.buffers[pt], Get(s.buffers, pt) + [f])
            && LastOf(r.buffers[pt]) == Some(f)
            && r.queues == s.queues[pt := Get(s.queues, pt) + [f]])
  {
    if s.isPaused {
      RoutePaused(s, f, maxRetention, tf);
    } else {
      RouteLive(s, f, maxRetention, tf);
    }
  }

  lemma RoutePaused(s: Store, f: Frame, maxRetention: real, tf: TimeField)
    requires s.isPaused
    ensures var r, pt := Route(s, f, maxRetention, tf), PacketKeyOf(f);
      && r == s.(holdingBuffers := r.holdingBuffers, holdingTrimCounters := r.holdingTrimCounters)
      && pt in r.holdingBuffers && r.holdingBuffers == s.holdingBuffers[pt := r.holdingBuffers[pt]]
      && SuffixOf(r.holdingBuffers[pt], Get(s.holdingBuffers, pt) + [f])
      && LastOf(r.holdingBuffers[pt]) == Some(f)
  {
    var pt := PacketKeyOf(f);
    var a := Arrive(Get(s.holdingBuffers, pt), Count(s.holdingTrimCounters, pt), f, maxRetention, tf);
    ArriveSpec(Get(s.holdingBuffers, pt), Count(s.holdingTrimCounters, pt), f, maxRetention, tf);
    assert Route(s, f, maxRetention, tf)
        == s.(holdingBuffers := s.holdingBuffers[pt := a.0], holdingTrimCounters := s.holdingTrimCounters[pt := a.1]);
    assert LastOf(a.0) == Some(f);
  }

  lemma RouteLive(s: Store, f: Frame, maxRetention: real, tf: TimeField)
    requires !s.isPaused
    ensures var r, pt := Route(s, f, maxRetention, tf), PacketKeyOf(f);
      && r == s.(buffers := r.buffers, queues := r.queues, trimCounters := r.trimCounters)
      && pt in r.buffers && r.buffers == s.buffers[pt := r.buffers[pt]]
      && SuffixOf(r.buffers[pt], Get(s.buffers, pt) + [f])
      && LastOf(r.buffers[pt]) == Some(f)
      && r.queues == s.queues[pt := Get(s.queues, pt) + [f]]
  {
    var pt := PacketKeyOf(f);
    var a := Arrive(Get(s.buffers, pt), Count(s.trimCounters, pt), f, maxRetention, tf);
    ArriveSpec(Get(s.buffers, pt), Count(s.trimCounters, pt), f, maxRetention, tf);
    assert Route(s, f, maxRetention, tf)
        == s.(buffers := s.buffers[pt := a.0], queues := s.queues[pt := Get(s.queues, pt) + [f]],
              trimCounters := s.trimCounters[pt := a.1]);
    assert LastOf(a.0) == Some(f);
  }

  /** The size check never keeps a decoded frame from being routed. */
  lemma SizeCheckDoesNotBlock(s: Store, size: int, accepted: Option<seq<int>>, now: int,
                              decoded: Option<Frame>, maxRetention: real, tf: TimeField)
    ensures var r, t := AfterBinaryMessage(s, size, accepted, now, decoded, maxRetention, tf),
                        Received(s, decoded, maxRetention, tf);
      r.buffers == t.buffers && r.queues == t.queues && r.holdingBuffers == t.holdingBuffers
  {
    ValidatedSpec(s, size, accepted, now);
  }

  /**
   * `getQueued` hands out the queue and leaves it empty, so a second call
   * returns nothing; no other state changes.
   */
  lemma QueuedSpec(s: Store, pt: PacketKey)
    ensures var (r, frames) := Queued(s, pt);
      && frames == Get(s.queues, pt)
      && r == s.(queues := r.queues)
      && r.queues.Keys == s.queues.Keys
      && (forall k | k in r.queues && k != pt :: r.queues[k] == s.queues[k])
      && Queued(r, pt).1 == []
  {
  }

  /** The queue of a type sees exactly the frames routed while live. */
  lemma QueueSeesLiveFrames(s: Store, f: Frame, k: PacketKey, maxRetention: real, tf: TimeField)
    ensures Queued(Route(s, f, maxRetention, tf), k).1
         == if !s.isPaused && k == PacketKeyOf(f) then Get(s.queues, k) + [f] else Get(s.queues, k)
  {
    RouteSpec(s, f, maxRetention, tf);
    QueuedSpec(Route(s, f, maxRetention, tf), k);
  }

  /**
   * `getSlice`: exactly the frames of the buffer within the window of the
   * last frame's time; the last frame itself is in it when it has a time
   * and the window is not negative.
   */
  lemma SliceSpec(s: Store, sec: real, pt: PacketKey, maxRetention: real, tf: TimeField)
    ensures var r, b := Slice(s, sec, pt, maxRetention, tf), Get(s.buffers, pt);
      && (|b| == 0 ==> r == [])
      && (|b| > 0 ==> forall f :: f in r <==>
                        f in b && InWindow(f, SliceEnd(b[|b| - 1], tf), Min(sec, maxRetention), tf))
      && (|b| > 0 && TimeOf(b[|b| - 1], tf).Some? && 0.0 <= sec && 0.0 <= maxRetention ==> b[|b| - 1] in r)
  {
    var b := Get(s.buffers, pt);
    if |b| > 0 {
      FilterSpec(b, WindowTest(SliceEnd(b[|b| - 1], tf), Min(sec, maxRetention), tf));
    }
  }

  /** Whether `last`, if it has a time, is no later than `chosen` (or than `bound` when nothing is chosen). */
  predicate NotBeaten(last: Option<Frame>, chosen: Option<Frame>, bound: real, tf: TimeField)
  {
    last.Some? && TimeOf(last.value, tf).Some? ==>
      if chosen.Some? then TimeOf(chosen.value, tf).Some? && TimeOf(last.value, tf).value <= TimeOf(chosen.value, tf).value
      else TimeOf(last.value, tf).value <= bound
  }

  lemma {:induction false} LatestFromSpec(buffers: map<PacketKey, seq<Frame>>, order: seq<PacketKey>, tf: TimeField,
                                          best: Option<Frame>, bestTime: real)
    requires best.Some? ==> TimeOf(best.value, tf) == Some(bestTime)
    ensures var r := LatestFrom(buffers, order, tf, best, bestTime);
      && (best.Some? ==> r.Some?)
      && (r.Some? ==> TimeOf(r.value, tf).Some? && TimeOf(r.value, tf).value >= bestTime)
      && (r == best || exists k | k in order :: r == LastOf(Get(buffers, k)))
      && (forall k | k in order :: NotBeaten(LastOf(Get(buffers, k)), r, bestTime, tf))
    decreases |order|
  {
    if order != [] {
      assert forall k | k in order :: k == order[0] || k in order[1..];
      var last := LastOf(Get(buffers, order[0]));
      if last.Some? && TimeOf(last.value, tf).Some? && TimeOf(last.value, tf).value > bestTime {
        LatestFromSpec(buffers, order[1..], tf, last, TimeOf(last.value, tf).value);
      } else {
        LatestFromSpec(buffers, order[1..], tf, best, bestTime);
      }
    }
  }

  /**
   * `getLatestFrame()`: the answer is the last frame of one of the buffers,
   * and no buffer's last frame has a later time; with no answer, no buffer
   * has a last frame with a time above -1.
   */
  lemma LatestFrameSpec(buffers: map<PacketKey, seq<Frame>>, order: seq<PacketKey>, tf: TimeField)
    ensures var r := LatestFrom(buffers, order, tf, None, -1.0);
      && (r.Some? ==> exists k | k in order :: r == LastOf(Get(buffers, k)))
      && (forall k | k in order :: NotBeaten(LastOf(Get(buffers, k)), r, -1.0, tf))
  {
    LatestFromSpec(buffers, order, tf, None, -1.0);
  }

  /**
   * `getLatestFrame()` over the whole store: when `order` lists exactly the
   * packet types that have buffers, as the map's iteration does, the answer
   * is the last frame of one of the buffers and no buffer's last frame has
   * a later time.
   */
  lemma LatestFrameOfStore(buffers: map<PacketKey, seq<Frame>>, order: seq<PacketKey>, tf: TimeField)
    requires forall k :: k in order <==> k in buffers
    ensures var r := LatestFrom(buffers, order, tf, None, -1.0);
      && (r.Some? ==> exists k | k in buffers :: r == LastOf(buffers[k]))
      && (forall k | k in buffers :: NotBeaten(LastOf(buffers[k]), r, -1.0, tf))
  {
    LatestFrameSpec(buffers, order, tf);
  }

  /**
   * `togglePause`: pausing changes no buffer, queue or signal; resuming
   * empties the holding maps, bumps the reset signal, leaves the buffers of
   * types with nothing held alone, gives every held type a buffer and a
   * queue, keeps every held frame while the total is under 100, and leaves
   * a buffer whose frames all have times sorted.
   */
  lemma ToggledSpec(s: Store, maxRetention: real, tf: TimeField)
    ensures var r := Toggled(s, maxRetention, tf);
      && r.isPaused == !s.isPaused
      && r.packetSizeErrors == s.packetSizeErrors && r.hasPacketErrors == s.hasPacketErrors
      && (!s.isPaused ==> r.buffers == s.buffers && r.queues == s.queues && r.resetSignal == s.resetSignal)
      && (s.isPaused ==> r.holdingBuffers == map[] && r.holdingTrimCounters == map[] && r.resetSignal == s.resetSignal + 1)
      && (s.isPaused ==> forall k :: k in r.buffers <==> k in s.buffers || k in HeldKeys(s))
      && (s.isPaused ==> forall k | k in s.buffers && k !in HeldKeys(s) :: r.buffers[k] == s.buffers[k])
      && (s.isPaused ==> forall k | k in HeldKeys(s) :: k in r.queues && r.queues[k] == Get(s.queues, k))
      && (s.isPaused ==> forall k | k in HeldKeys(s) && |Get(s.buffers, k) + s.holdingBuffers[k]| < 100 ::
            multiset(r.buffers[k]) == multiset(Get(s.buffers, k) + s.holdingBuffers[k]))
      && (s.isPaused ==> forall k | k in HeldKeys(s) && Timed(Get(s.buffers, k) + s.holdingBuffers[k], tf) ::
            SortedByTime(r.buffers[k], tf))
  {
    if s.isPaused {
      forall k | k in HeldKeys(s) {
        MergedSpec(Get(s.buffers, k), s.holdingBuffers[k], maxRetention, tf);
      }
    }
  }

  /** Pausing and resuming at once, with nothing received between, only bumps the reset signal. */
  lemma PauseResume(s: Store, maxRetention: real, tf: TimeField)
    requires Consistent(s) && !s.isPaused
    ensures Toggled(Toggled(s, maxRetention, tf), maxRetention, tf) == s.(resetSignal := s.resetSignal + 1)
  {
    var p := Toggled(s, maxRetention, tf);
    assert HeldKeys(p) == {};
    assert MergedUpTo(p, {}, maxRetention, tf) == s.buffers;
  }

  function KeyIs(k: PacketKey): Frame -> bool
  {
    (f: Frame) => PacketKeyOf(f) == k
  }

  /** Grouping: a type has a group exactly when some frame has it, and its group is those frames in order. */
  lemma {:induction false} GroupBySpec(frames: seq<Frame>, k: PacketKey)
    ensures k in GroupBy(frames) <==> exists f | f in frames :: PacketKeyOf(f) == k
    ensures Get(GroupBy(frames), k) == Filter(frames, KeyIs(k))
    decreases |frames|
  {
    if frames != [] {
      var init, f := frames[..|frames| - 1], frames[|frames| - 1];
      assert frames == init + [f];
      GroupBySpec(init, k);
      FilterSnoc(init, f, KeyIs(k));
    }
  }

  /**
   * `replaceBuffer`: with a type, that buffer becomes the frames and its
   * queue empties; without one, each type's buffer is the frames of that
   * type in order, exactly the types present have buffers, and every queue
   * is empty. The reset signal is bumped; holding and the error log stay.
   */
  lemma ReplacedSpec(s: Store, frames: seq<Frame>, pt: Option<PacketKey>)
    ensures var r := Replaced(s, frames, pt);
      && r.resetSignal == s.resetSignal + 1 && r.isPaused == s.isPaused
      && r.holdingBuffers == s.holdingBuffers && r.packetSizeErrors == s.packetSizeErrors
      && (pt.Some? ==> r.buffers == s.buffers[pt.value := frames] && r.queues == s.queues[pt.value := []])
      && (pt.None? ==> forall k ::
            && Get(r.buffers, k) == Filter(frames, KeyIs(k))
            && Get(r.queues, k) == []
            && (k in r.buffers <==> exists f | f in frames :: PacketKeyOf(f) == k))
  {
    if pt.None? {
      forall k {
        GroupBySpec(frames, k);
      }
    }
  }

  /** After `clearAll` every query comes back empty, while the pause state and the error flag stay. */
  lemma ClearedSpec(s: Store, pt: PacketKey, sec: real, maxRetention: real, tf: TimeField, order: seq<PacketKey>)
    ensures var r := Cleared(s);
      && Slice(r, sec, pt, maxRetention, tf) == [] && LatestOf(r, pt).None? && Queued(r, pt).1 == []
      && LatestFrom(r.buffers, order, tf, None, -1.0).None?
      && r.isPaused == s.isPaused && r.hasPacketErrors == s.hasPacketErrors && r.resetSignal == s.resetSignal + 1
  {
    LatestFromSpec(map[], order, tf, None, -1.0);
  }

  /** The maps of a resume in progress, once the types in `done` are merged. */
  ghost predicate MergeProgress(s0: Store, done: set<PacketKey>, main: map<PacketKey, seq<Frame>>,
                                live: map<PacketKey, seq<Frame>>, counters: map<PacketKey, int>,
                                maxRetention: real, tf: TimeField)
  {
    && done <= s0.holdingBuffers.Keys
    && main == MergedUpTo(s0, done, maxRetention, tf)
    && live == (map k | k in s0.queues.Keys + done :: Get(s0.queues, k))
    && counters == (map k | k in s0.trimCounters.Keys + done :: Count(s0.trimCounters, k))
  }

  lemma MergeStep(s0: Store, done: set<PacketKey>, main: map<PacketKey, seq<Frame>>,
                  live: map<PacketKey, seq<Frame>>, counters: map<PacketKey, int>,
                  pt: PacketKey, maxRetention: real, tf: TimeField)
    requires MergeProgress(s0, done, main, live, counters, maxRetention, tf)
    requires pt in s0.holdingBuffers && pt !in done
    ensures var main', live', counters' :=
        main[pt := Merged(Get(main, pt), s0.holdingBuffers[pt], maxRetention, tf)],
        if pt in live then live else live[pt := []],
        if pt in counters then counters else counters[pt := 0];
      MergeProgress(s0, done + {pt}, main', live', counters', maxRetention, tf)
  {
    MergeStepMain(s0, done, main, pt, maxRetention, tf);
    AddQueueKey(s0.queues, done, live, pt);
    AddCounterKey(s0.trimCounters, done, counters, pt);
  }

  lemma MergeStepMain(s0: Store, done: set<PacketKey>, main: map<PacketKey, seq<Frame>>,
                      pt: PacketKey, maxRetention: real, tf: TimeField)
    requires done <= s0.holdingBuffers.Keys && pt in s0.holdingBuffers && pt !in done
    requires main == MergedUpTo(s0, done, maxRetention, tf)
    ensures main[pt := Merged(Get(main, pt), s0.holdingBuffers[pt], maxRetention, tf)]
         == MergedUpTo(s0, done + {pt}, maxRetention, tf)
  {
    assert Get(main, pt) == Get(s0.buffers, pt);
  }

  /** Creating a missing queue extends a map that copies `queues` on its keys and `done` by one key. */
  lemma AddQueueKey(queues: map<PacketKey, seq<Frame>>, done: set<PacketKey>, live: map<PacketKey, seq<Frame>>, pt: PacketKey)
    requires live == (map k | k in queues.Keys + done :: Get(queues, k))
    ensures (if pt in live then live else live[pt := []])
         == map k | k in queues.Keys + (done + {pt}) :: Get(queues, k)
  {
  }

  /** Creating a missing trim counter extends a map that copies `counters` on its keys and `done` by one key. */
  lemma AddCounterKey(counters: map<PacketKey, int>, done: set<PacketKey>, m: map<PacketKey, int>, pt: PacketKey)
    requires m == (map k | k in counters.Keys + done :: Count(counters, k))
    ensures (if pt in m then m else m[pt := 0])
         == map k | k in counters.Keys + (done + {pt}) :: Count(counters, k)
  {
  }

  /** One step of the merge loop: the held frames of `packetType` join its buffer. */
  method MergeOne(ghost s0: Store, ghost done: set<PacketKey>, main: map<PacketKey, seq<Frame>>,
                  live: map<PacketKey, seq<Frame>>, counters: map<PacketKey, int>,
                  packetType: PacketKey, holdingBuffer: seq<Frame>, maxRetention: real, tf: TimeField)
    returns (main': map<PacketKey, seq<Frame>>, live': map<PacketKey, seq<Frame>>, counters': map<PacketKey, int>)
    requires MergeProgress(s0, done, main, live, counters, maxRetention, tf)
    requires packetType in s0.holdingBuffers && packetType !in done && holdingBuffer == s0.holdingBuffers[packetType]
    ensures MergeProgress(s0, done + {packetType}, main', live', counters', maxRetention, tf)
  {
    live', counters' := live, counters;
    if packetType !in live {
      live' := live[packetType := []];
    }
    if packetType !in counters {
      counters' := counters[packetType := 0];
    }
    // The held frames are appended, the buffer sorted by time, then trimmed.
    var sorted := SortByTime(Get(main, packetType) + holdingBuffer, tf);
    var merged := Retain(sorted, if |sorted| > 0 then TimeOf(sorted[|sorted| - 1], tf) else None, maxRetention, tf);
    main' := main[packetType := merged];
    MergeStep(s0, done, main, live, counters, packetType, maxRetention, tf);
  }

  /** A resume is the merged maps, with the holding maps emptied and the signal bumped. */
  lemma ResumeState(s0: Store, main: map<PacketKey, seq<Frame>>,
                    live: map<PacketKey, seq<Frame>>, counters: map<PacketKey, int>,
                    maxRetention: real, tf: TimeField)
    requires s0.isPaused
    requires MergeProgress(s0, HeldKeys(s0), main, live, counters, maxRetention, tf)
    ensures Toggled(s0, maxRetention, tf)
         == s0.(buffers := main, queues := live, trimCounters := counters,
                holdingBuffers := map[], holdingTrimCounters := map[],
                isPaused := false, resetSignal := s0.resetSignal + 1)
  {
  }

  /**
   * The merge loop of a resume: every non-empty holding buffer is appended
   * to its main buffer, which is sorted by time and trimmed, and the type
   * gets a queue and a counter if it had none.
   */
  method MergeHeld(s0: Store, maxRetention: real, tf: TimeField)
    returns (main: map<PacketKey, seq<Frame>>, live: map<PacketKey, seq<Frame>>, counters: map<PacketKey, int>)
    ensures MergeProgress(s0, HeldKeys(s0), main, live, counters, maxRetention, tf)
  {
    ghost var done: set<PacketKey> := {};
    main, live, counters := s0.buffers, s0.queues, s0.trimCounters;
    var remaining := s0.holdingBuffers.Keys;
    while remaining != {}
      invariant remaining <= s0.holdingBuffers.Keys
      invariant done == HeldKeys(s0) - remaining
      invariant MergeProgress(s0, done, main, live, counters, maxRetention, tf)
      decreases remaining
    {
      var packetType :| packetType in remaining;
      var holdingBuffer := s0.holdingBuffers[packetType];
      if |holdingBuffer| > 0 {
        assert packetType in HeldKeys(s0) && packetType !in done;
        main, live, counters := MergeOne(s0, done, main, live, counters, packetType, holdingBuffer, maxRetention, tf);
        done := done + {packetType};
      } else {
        assert packetType !in HeldKeys(s0);
      }
      remaining := remaining - {packetType};
    }
    assert done == HeldKeys(s0);
  }

  // ---------------------------------------------------------------------
  // The provider

  /**
   * The refill loop of `replaceBuffer` without a packet type: each frame is
   * appended to its type's buffer, and each type seen gets an empty queue and
   * a zero trim counter.
   */
  method Regroup(frames: seq<Frame>)
    returns (groups: map<PacketKey, seq<Frame>>, emptied: map<PacketKey, seq<Frame>>, counters: map<PacketKey, int>)
    ensures groups == GroupBy(frames)
    ensures emptied == map k | k in groups :: []
    ensures counters == map k | k in groups :: 0
  {
    groups, emptied, counters := map[], map[], map[];
    for i := 0 to |frames|
      invariant groups == GroupBy(frames[..i])
      invariant emptied.Keys == groups.Keys && counters.Keys == groups.Keys
      invariant forall k | k in emptied :: emptied[k] == []
      invariant forall k | k in counters :: counters[k] == 0
    {
      var f := frames[i];
      var pt := PacketKeyOf(f);
      if pt !in groups {
        emptied := emptied[pt := []];
        counters := counters[pt := 0];
      }
      groups := groups[pt := Get(groups, pt) + [f]];
      assert frames[..i + 1][..i] == frames[..i];
    }
    assert frames[..|frames|] == frames;
  }

  class TelemetryStore {
    var buffers: map<PacketKey, seq<Frame>>
    var queues: map<PacketKey, seq<Frame>>
    var trimCounters: map<PacketKey, int>
    var holdingBuffers: map<PacketKey, seq<Frame>>
    var holdingTrimCounters: map<PacketKey, int>
    var isPaused: bool
    var resetSignal: int
    var packetSizeErrors: seq<SizeError>
    var hasPacketErrors: bool

    function State(): Store
      reads this
    {
      Store(buffers, queues, trimCounters, holdingBuffers, holdingTrimCounters,
            isPaused, resetSignal, packetSizeErrors, hasPacketErrors)
    }

    ghost predicate Valid()
      reads this
    {
      Consistent(State())
    }

    constructor()
      ensures Valid() && State() == Initial()
    {
      buffers, queues, trimCounters := map[], map[], map[];
      holdingBuffers, holdingTrimCounters := map[], map[];
      isPaused, resetSignal := false, 0;
      packetSizeErrors, hasPacketErrors := [], false;
    }

    /** `validatePacketSize`; `accepted` is the current decoder's size list, if it has one. */
    method ValidatePacketSize(size: int, accepted: Option<seq<int>>, now: int) returns (isValid: bool)
      requires Valid()
      modifies this
      ensures Valid()
      ensures (State(), isValid) == Validated(old(State()), size, accepted, now)
    {
      if accepted.None? {
        return true;
      }
      isValid := size in accepted.value;
      if !isValid {
        packetSizeErrors := packetSizeErrors + [SizeError(now, size)];
        packetSizeErrors := Recent(packetSizeErrors, now);
        hasPacketErrors := |packetSizeErrors| > 0;
      }
    }

    /** The sweep the provider runs every 100 ms. */
    method SweepErrors(now: int)
      requires Valid()
      modifies this
      ensures Valid()
      ensures State() == Swept(old(State()), now)
    {
      packetSizeErrors := Recent(packetSizeErrors, now);
      hasPacketErrors := |packetSizeErrors| > 0;
    }

    /** The body of `onmessage` after the frame is obtained. */
    method OnFrame(frame: Option<Frame>, maxRetention: real, tf: TimeField)
      requires Valid()
      modifies this
      ensures Valid()
      ensures State() == Received(old(State()), frame, maxRetention, tf)
    {
      if frame.None? {
        return;
      }
      var f := frame.value;
      var packetType := PacketKeyOf(f);
      // A type seen for the first time starts with an empty buffer and a zero counter.
      if isPaused {
        var holdingBuffer := Get(holdingBuffers, packetType) + [f];
        var counter := Count(holdingTrimCounters, packetType) + 1;
        if counter >= 100 && |holdingBuffer| > 1 {
          counter := 0;
          holdingBuffer := Retain(holdingBuffer, TimeOf(f, tf), maxRetention, tf);
        }
        holdingBuffers := holdingBuffers[packetType := holdingBuffer];
        holdingTrimCounters := holdingTrimCounters[packetType := counter];
      } else {
        var packetBuffer := Get(buffers, packetType) + [f];
        queues := queues[packetType := Get(queues, packetType) + [f]];
        var counter := Count(trimCounters, packetType) + 1;
        if counter >= 100 && |packetBuffer| > 1 {
          counter := 0;
          packetBuffer := Retain(packetBuffer, TimeOf(f, tf), maxRetention, tf);
        }
        buffers := buffers[packetType := packetBuffer];
        trimCounters := trimCounters[packetType := counter];
      }
    }

    /** A binary message: the size check, then the decoded frame (if any) is routed. */
    method OnBinaryMessage(size: int, accepted: Option<seq<int>>, now: int, decoded: Option<Frame>,
                           maxRetention: real, tf: TimeField)
      requires Valid()
      modifies this
      ensures Valid()
      ensures State() == AfterBinaryMessage(old(State()), size, accepted, now, decoded, maxRetention, tf)
    {
      var _ := ValidatePacketSize(size, accepted, now);
      OnFrame(decoded, maxRetention, tf);
    }

    /** `getQueued(pt)`. */
    method GetQueued(packetType: PacketKey) returns (frames: seq<Frame>)
      requires Valid()
      modifies this
      ensures Valid()
      ensures (State(), frames) == Queued(old(State()), packetType)
    {
      if packetType !in queues {
        return [];
      }
      frames := queues[packetType];
      queues := queues[packetType := []];
    }

    /** `getLatestFrame()`, visiting the buffers in `order`, the map's iteration order. */
    method GetLatestFrame(order: seq<PacketKey>, tf: TimeField) returns (latestFrame: Option<Frame>)
      requires forall k :: k in order <==> k in buffers
      ensures latestFrame == LatestFrom(buffers, order, tf, None, -1.0)
      ensures latestFrame.Some? ==> exists k | k in buffers :: latestFrame == LastOf(buffers[k])
      ensures forall k | k in buffers :: NotBeaten(LastOf(buffers[k]), latestFrame, -1.0, tf)
    {
      LatestFrameOfStore(buffers, order, tf);
      latestFrame := None;
      var latestTime := -1.0;
      for i := 0 to |order|
        invariant LatestFrom(buffers, order, tf, None, -1.0) == LatestFrom(buffers, order[i..], tf, latestFrame, latestTime)
      {
        assert order[i..][1..] == order[i + 1..];
        var buffer := Get(buffers, order[i]);
        if |buffer| > 0 {
          var frame := buffer[|buffer| - 1];
          var frameTime := TimeOf(frame, tf);
          if frameTime.Some? && frameTime.value > latestTime {
            latestTime := frameTime.value;
            latestFrame := Some(frame);
          }
        }
      }
    }

    /** `togglePause`: pause, or resume by merging the holding buffers into the main ones. */
    method TogglePause(maxRetention: real, tf: TimeField)
      requires Valid()
      modifies this
      ensures Valid()
      ensures State() == Toggled(old(State()), maxRetention, tf)
    {
      var s0 := State();
      if !isPaused {
        isPaused := true;
        return;
      }
      var main, live, counters := MergeHeld(s0, maxRetention, tf);
      ghost var s1 := s0.(buffers := main, queues := live, trimCounters := counters,
                          holdingBuffers := map[], holdingTrimCounters := map[],
                          isPaused := false, resetSignal := s0.resetSignal + 1);
      assert s1 == Toggled(s0, maxRetention, tf) && Consistent(s1) by {
        ResumeState(s0, main, live, counters, maxRetention, tf);
        ConsistentToggled(s0, maxRetention, tf);
      }
      buffers, queues, trimCounters := main, live, counters;
      holdingBuffers := map[];
      holdingTrimCounters := map[];
      isPaused := false;
      resetSignal := resetSignal + 1;
      assert State() == s1;
    }

    /** `replaceBuffer(frames, pt)`; without a type the frames are regrouped one by one. */
    method ReplaceBuffer(frames: seq<Frame>, packetType: Option<PacketKey>)
      requires Valid()
      modifies this
      ensures Valid()
      ensures State() == Replaced(old(State()), frames, packetType)
    {
      if packetType.Some? {
        buffers := buffers[packetType.value := frames];
        queues := queues[packetType.value := []];
      } else {
        // The maps are cleared and refilled frame by frame.
        var groups, emptied, counters := Regroup(frames);
        buffers, queues, trimCounters := groups, emptied, counters;
      }
      resetSignal := resetSignal + 1;
    }

    /** `clearAll`. */
    method ClearAll()
      requires Valid()
      modifies this
      ensures Valid()
      ensures State() == Cleared(old(State()))
    {
      buffers, queues, trimCounters := map[], map[], map[];
      holdingBuffers, holdingTrimCounters := map[], map[];
      resetSignal := resetSignal + 1;
    }
  }
}
