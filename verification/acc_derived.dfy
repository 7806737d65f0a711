/**
 * The fields the Assetto Corsa Competizione decoder derives on a physics
 * frame (`calculateDerivedFields` in src/decoders/assetto-corsa.ts): rates of
 * change against the previous physics frame, and summaries of the frame
 * itself. Float fields are read through `f32`, a reading of 32-bit patterns
 * as numbers; the arithmetic is over `real`.
 */
module AccDerived {
  import opened Wire
  import opened Frames

  /** `ACCPacketType`: the leading byte of a packet. */
  const PhysicsType: byte := 1
  const GraphicsType: byte := 2
  const StaticType: byte := 3

  /** `Math.abs(frame.t - prev.t) || 0.016`: a step of 0 is replaced, never a negative one. */
  function TimeStep(t: real, prevT: real): (dt: real)
    ensures dt > 0.0
  {
    var d := if t >= prevT then t - prevT else prevT - t;
    if d == 0.0 then 0.016 else d
  }

  /** The change of `key` from `before` to `after` per second. */
  function Rate(after: Frame, before: Frame, key: string, dt: real, f32: nat -> real): real
    requires dt > 0.0
  {
    (Number(after, key, f32) - Number(before, key, f32)) / dt
  }

  /** There is a previous frame and it is a physics frame. */
  predicate FollowsPhysics(prev: Option<Frame>)
  {
    prev.Some? && Lookup(prev.value, "packet_type") == Some(Int(PhysicsType))
  }

  /** The eight per-corner rates, each with the field it is the rate of. */
  const WheelRates: map<string, string> := map[
    "suspensionVelocityFL" := "suspensionTravelFL", "suspensionVelocityFR" := "suspensionTravelFR",
    "suspensionVelocityRL" := "suspensionTravelRL", "suspensionVelocityRR" := "suspensionTravelRR",
    "tyreTempVelocityFL" := "tyreCoreTemperatureFL", "tyreTempVelocityFR" := "tyreCoreTemperatureFR",
    "tyreTempVelocityRL" := "tyreCoreTemperatureRL", "tyreTempVelocityRR" := "tyreCoreTemperatureRR"
  ]

  /** The eleven fields set from the previous frame. */
  const MotionKeys: set<string> := WheelRates.Keys + {"shifting", "rpmVelocity", "fuelConsumptionRate"}

  /** The four fields computed from the frame itself. */
  const SummaryKeys: set<string> := {"totalWheelSlip", "averageTyreTemp", "averageBrakeTemp", "sessionID"}

  /** The fields `calculateDerivedFields` writes. */
  const DerivedKeys: set<string> := MotionKeys + SummaryKeys

  /**
   * The value of motion field `k`: its rate against the previous physics
   * frame (fuel counted as consumption), the gear change for `shifting`, or 0
   * without a previous physics frame.
   */
  function MotionValue(f: Frame, prev: Option<Frame>, f32: nat -> real, k: string): Value
  {
    if !FollowsPhysics(prev) then
      if k == "shifting" then Int(0) else Num(0.0)
    else
      var p := prev.value;
      var dt := TimeStep(Number(f, "t", f32), Number(p, "t", f32));
      if k == "shifting" then Int(if Lookup(f, "gear") != Lookup(p, "gear") then 1 else 0)
      else if k == "rpmVelocity" then Num(Rate(f, p, "rpms", dt, f32))
      else if k == "fuelConsumptionRate" then Num(Rate(p, f, "fuel", dt, f32))
      else if k in WheelRates then Num(Rate(f, p, WheelRates[k], dt, f32))
      else Num(0.0)
  }

  function MotionFields(f: Frame, prev: Option<Frame>, f32: nat -> real): map<string, Value>
  {
    map k | k in MotionKeys :: MotionValue(f, prev, f32, k)
  }

  function Square(x: real): real { x * x }

  /** `totalWheelSlip`: the root of the sum of the squared slips of the four wheels. */
  function TotalWheelSlip(g: Frame, f32: nat -> real): Value
  {
    Root(Square(Number(g, "wheelSlipFL", f32)) + Square(Number(g, "wheelSlipFR", f32))
         + Square(Number(g, "wheelSlipRL", f32)) + Square(Number(g, "wheelSlipRR", f32)))
  }

  /** `averageTyreTemp`: the mean core temperature of the four tyres. */
  function AverageTyreTemp(g: Frame, f32: nat -> real): Value
  {
    Num((Number(g, "tyreCoreTemperatureFL", f32) + Number(g, "tyreCoreTemperatureFR", f32)
         + Number(g, "tyreCoreTemperatureRL", f32) + Number(g, "tyreCoreTemperatureRR", f32)) / 4.0)
  }

  /** `averageBrakeTemp`: the mean temperature of the four brakes. */
  function AverageBrakeTemp(g: Frame, f32: nat -> real): Value
  {
    Num((Number(g, "brakeTempFL", f32) + Number(g, "brakeTempFR", f32)
         + Number(g, "brakeTempRL", f32) + Number(g, "brakeTempRR", f32)) / 4.0)
  }

  /** `sessionID`: the frame time in seconds, rounded down to a whole hour. */
  function SessionID(g: Frame, f32: nat -> real): Value
  {
    Int((Number(g, "t", f32) / 3600.0).Floor * 3600)
  }

  /** The value of summary field `k` over the frame `g`. */
  function SummaryValue(g: Frame, f32: nat -> real, k: string): Value
  {
    if k == "totalWheelSlip" then TotalWheelSlip(g, f32)
    else if k == "averageTyreTemp" then AverageTyreTemp(g, f32)
    else if k == "averageBrakeTemp" then AverageBrakeTemp(g, f32)
    else SessionID(g, f32)
  }

  function SummaryFields(g: Frame, f32: nat -> real): map<string, Value>
  {
    map k | k in SummaryKeys :: SummaryValue(g, f32, k)
  }

  /** The frame after `calculateDerivedFields`: the motion fields, then the summary over the result. */
  function WithDerived(f: Frame, prev: Option<Frame>, f32: nat -> real): Frame
  {
    var g := f + MotionFields(f, prev, f32);
    g + SummaryFields(g, f32)
  }

  // ---------------------------------------------------------------------
  // Lemmas

  /** A key missing from the right operand of `+` keeps its left-hand entry. */
  lemma OverlayOutside(a: map<string, Value>, b: map<string, Value>, key: string)
    requires key !in b
    ensures (key in a + b <==> key in a) && (key in a ==> (a + b)[key] == a[key])
  {
  }

  /** A key missing from `m` reads the same number through `f + m` as through `f`. */
  lemma NumberOutside(f: Frame, m: map<string, Value>, key: string, f32: nat -> real)
    requires key !in m
    ensures Number(f + m, key, f32) == Number(f, key, f32)
  {
  }

  lemma MotionKeysNotSummary(k: string)
    requires k in MotionKeys
    ensures k !in SummaryKeys
  {
  }

  /** A motion field of the result is its motion value. */
  lemma MotionThrough(f: Frame, prev: Option<Frame>, f32: nat -> real, k: string)
    requires k in MotionKeys
    ensures k in WithDerived(f, prev, f32) && WithDerived(f, prev, f32)[k] == MotionValue(f, prev, f32, k)
  {
    MotionKeysNotSummary(k);
    var g := f + MotionFields(f, prev, f32);
    OverlayOutside(g, SummaryFields(g, f32), k);
  }

  /** None of the fields the summaries read is a motion field. */
  lemma SlipSourcesNotMotion()
    ensures "wheelSlipFL" !in MotionKeys && "wheelSlipFR" !in MotionKeys
    ensures "wheelSlipRL" !in MotionKeys && "wheelSlipRR" !in MotionKeys
  {
  }

  lemma TyreSourcesNotMotion()
    ensures "tyreCoreTemperatureFL" !in MotionKeys && "tyreCoreTemperatureFR" !in MotionKeys
    ensures "tyreCoreTemperatureRL" !in MotionKeys && "tyreCoreTemperatureRR" !in MotionKeys
  {
  }

  lemma BrakeSourcesNotMotion()
    ensures "brakeTempFL" !in MotionKeys && "brakeTempFR" !in MotionKeys
    ensures "brakeTempRL" !in MotionKeys && "brakeTempRR" !in MotionKeys
  {
  }

  /** The summary fields do not read any motion field, so they read the frame as decoded. */
  lemma WheelSlipAfterMotion(f: Frame, m: map<string, Value>, f32: nat -> real)
    requires m.Keys == MotionKeys
    ensures TotalWheelSlip(f + m, f32) == TotalWheelSlip(f, f32)
  {
    SlipSourcesNotMotion();
    NumberOutside(f, m, "wheelSlipFL", f32);
    NumberOutside(f, m, "wheelSlipFR", f32);
    NumberOutside(f, m, "wheelSlipRL", f32);
    NumberOutside(f, m, "wheelSlipRR", f32);
  }

  lemma TyreTempAfterMotion(f: Frame, m: map<string, Value>, f32: nat -> real)
    requires m.Keys == MotionKeys
    ensures AverageTyreTemp(f + m, f32) == AverageTyreTemp(f, f32)
  {
    TyreSourcesNotMotion();
    NumberOutside(f, m, "tyreCoreTemperatureFL", f32);
    NumberOutside(f, m, "tyreCoreTemperatureFR", f32);
    NumberOutside(f, m, "tyreCoreTemperatureRL", f32);
    NumberOutside(f, m, "tyreCoreTemperatureRR", f32);
  }

  lemma BrakeTempAfterMotion(f: Frame, m: map<string, Value>, f32: nat -> real)
    requires m.Keys == MotionKeys
    ensures AverageBrakeTemp(f + m, f32) == AverageBrakeTemp(f, f32)
  {
    BrakeSourcesNotMotion();
    NumberOutside(f, m, "brakeTempFL", f32);
    NumberOutside(f, m, "brakeTempFR", f32);
    NumberOutside(f, m, "brakeTempRL", f32);
    NumberOutside(f, m, "brakeTempRR", f32);
  }

  lemma SessionAfterMotion(f: Frame, m: map<string, Value>, f32: nat -> real)
    requires m.Keys == MotionKeys
    ensures SessionID(f + m, f32) == SessionID(f, f32)
  {
    assert "t" !in MotionKeys;
    NumberOutside(f, m, "t", f32);
  }

  /** A summary field of the result, computed over the frame as decoded. */
  lemma SummaryThrough(f: Frame, prev: Option<Frame>, f32: nat -> real, k: string)
    requires k in SummaryKeys
    ensures k in WithDerived(f, prev, f32) && WithDerived(f, prev, f32)[k] == SummaryValue(f, f32, k)
  {
    var m := MotionFields(f, prev, f32);
    var g := f + m;
    assert k in SummaryFields(g, f32) && SummaryFields(g, f32)[k] == SummaryValue(g, f32, k);
    if k == "totalWheelSlip" {
      WheelSlipAfterMotion(f, m, f32);
    } else if k == "averageTyreTemp" {
      TyreTempAfterMotion(f, m, f32);
    } else if k == "averageBrakeTemp" {
      BrakeTempAfterMotion(f, m, f32);
    } else {
      SessionAfterMotion(f, m, f32);
    }
  }

  /** `calculateDerivedFields` writes only its own fields. */
  lemma DerivedKeeps(f: Frame, prev: Option<Frame>, f32: nat -> real, key: string)
    requires key !in DerivedKeys
    ensures var d := WithDerived(f, prev, f32);
      (key in d <==> key in f) && (key in f ==> d[key] == f[key])
  {
    var g := f + MotionFields(f, prev, f32);
    OverlayOutside(g, SummaryFields(g, f32), key);
    OverlayOutside(f, MotionFields(f, prev, f32), key);
  }

  /** The page stamp survives the derived fields. */
  lemma DerivedStamp(f: Frame, prev: Option<Frame>, f32: nat -> real)
    ensures var d := WithDerived(f, prev, f32);
      Lookup(d, "packet_type") == Lookup(f, "packet_type") && Lookup(d, "t") == Lookup(f, "t")
  {
    StampNotDerived();
    DerivedKeeps(f, prev, f32, "packet_type");
    DerivedKeeps(f, prev, f32, "t");
  }

  lemma StampNotDerived()
    ensures "packet_type" !in DerivedKeys && "t" !in DerivedKeys
  {
  }

  /** The time step is the distance between the two stamps, or 0.016 when they are equal. */
  lemma TimeStepRule(t: real, prevT: real)
    ensures t != prevT ==> TimeStep(t, prevT) == (if t > prevT then t - prevT else prevT - t)
    ensures t == prevT ==> TimeStep(t, prevT) == 0.016
  {
  }

  /** Without a previous physics frame the eleven motion fields are all 0. */
  lemma DerivedFirstFrame(f: Frame, prev: Option<Frame>, f32: nat -> real)
    requires !FollowsPhysics(prev)
    ensures var d := WithDerived(f, prev, f32);
      forall k | k in MotionKeys :: k in d && d[k] == if k == "shifting" then Int(0) else Num(0.0)
  {
    forall k | k in MotionKeys
      ensures k in WithDerived(f, prev, f32) && WithDerived(f, prev, f32)[k] == MotionValue(f, prev, f32, k)
    {
      MotionThrough(f, prev, f32, k);
    }
  }

  /** A per-corner rate is none of the three engine fields. */
  lemma WheelRateKey(k: string)
    requires k in WheelRates
    ensures k in MotionKeys && k != "shifting" && k != "rpmVelocity" && k != "fuelConsumptionRate"
  {
  }

  lemma WheelRateValue(f: Frame, prev: Option<Frame>, f32: nat -> real, k: string)
    requires FollowsPhysics(prev) && k in WheelRates
    ensures var p := prev.value;
      MotionValue(f, prev, f32, k)
        == Num(Rate(f, p, WheelRates[k], TimeStep(Number(f, "t", f32), Number(p, "t", f32)), f32))
  {
    WheelRateKey(k);
  }

  /** After a physics frame each per-corner rate is the change of its field over the time step. */
  lemma DerivedWheelRate(f: Frame, prev: Option<Frame>, f32: nat -> real, k: string)
    requires FollowsPhysics(prev) && k in WheelRates
    ensures var d, p := WithDerived(f, prev, f32), prev.value;
      var dt := TimeStep(Number(f, "t", f32), Number(p, "t", f32));
      k in d && d[k] == Num(Rate(f, p, WheelRates[k], dt, f32))
  {
    WheelRateValue(f, prev, f32, k);
    MotionThrough(f, prev, f32, k);
  }

  lemma EngineValues(f: Frame, prev: Option<Frame>, f32: nat -> real)
    requires FollowsPhysics(prev)
    ensures var p := prev.value;
      var dt := TimeStep(Number(f, "t", f32), Number(p, "t", f32));
      && MotionValue(f, prev, f32, "rpmVelocity") == Num(Rate(f, p, "rpms", dt, f32))
      && MotionValue(f, prev, f32, "fuelConsumptionRate") == Num(Rate(p, f, "fuel", dt, f32))
      && MotionValue(f, prev, f32, "shifting") == Int(if Lookup(f, "gear") != Lookup(p, "gear") then 1 else 0)
  {
  }

  /** After a physics frame `rpmVelocity` is the change of the revs over the time step. */
  lemma DerivedRpmRate(f: Frame, prev: Option<Frame>, f32: nat -> real)
    requires FollowsPhysics(prev)
    ensures var d, p := WithDerived(f, prev, f32), prev.value;
      var dt := TimeStep(Number(f, "t", f32), Number(p, "t", f32));
      "rpmVelocity" in d && d["rpmVelocity"] == Num(Rate(f, p, "rpms", dt, f32))
  {
    MotionThrough(f, prev, f32, "rpmVelocity");
    EngineValues(f, prev, f32);
  }

  /** After a physics frame `fuelConsumptionRate` is the fuel used over the time step (previous minus current). */
  lemma DerivedFuelRate(f: Frame, prev: Option<Frame>, f32: nat -> real)
    requires FollowsPhysics(prev)
    ensures var d, p := WithDerived(f, prev, f32), prev.value;
      var dt := TimeStep(Number(f, "t", f32), Number(p, "t", f32));
      "fuelConsumptionRate" in d && d["fuelConsumptionRate"] == Num(Rate(p, f, "fuel", dt, f32))
  {
    MotionThrough(f, prev, f32, "fuelConsumptionRate");
    EngineValues(f, prev, f32);
  }

  /** After a physics frame `shifting` is 1 exactly when the gear differs from the previous one, else 0. */
  lemma DerivedShifting(f: Frame, prev: Option<Frame>, f32: nat -> real)
    requires FollowsPhysics(prev)
    ensures var d, p := WithDerived(f, prev, f32), prev.value;
      && (d["shifting"] == Int(1) <==> Lookup(f, "gear") != Lookup(p, "gear"))
      && (d["shifting"] == Int(0) <==> Lookup(f, "gear") == Lookup(p, "gear"))
  {
    MotionThrough(f, prev, f32, "shifting");
    EngineValues(f, prev, f32);
  }

  /** On every physics frame the two averages are the means of the four corners. */
  lemma DerivedAverages(f: Frame, prev: Option<Frame>, f32: nat -> real)
    ensures var d := WithDerived(f, prev, f32);
      && d["averageTyreTemp"].Num?
      && 4.0 * d["averageTyreTemp"].r == Number(f, "tyreCoreTemperatureFL", f32) + Number(f, "tyreCoreTemperatureFR", f32)
           + Number(f, "tyreCoreTemperatureRL", f32) + Number(f, "tyreCoreTemperatureRR", f32)
      && d["averageBrakeTemp"].Num?
      && 4.0 * d["averageBrakeTemp"].r == Number(f, "brakeTempFL", f32) + Number(f, "brakeTempFR", f32)
           + Number(f, "brakeTempRL", f32) + Number(f, "brakeTempRR", f32)
  {
    SummaryThrough(f, prev, f32, "averageTyreTemp");
    SummaryThrough(f, prev, f32, "averageBrakeTemp");
  }

  /** The total wheel slip is the root of the sum of the four squared slips, a number at least 0. */
  lemma DerivedWheelSlip(f: Frame, prev: Option<Frame>, f32: nat -> real)
    ensures var d := WithDerived(f, prev, f32);
      && d["totalWheelSlip"].Root? && d["totalWheelSlip"].radicand >= 0.0
      && d["totalWheelSlip"].radicand == Square(Number(f, "wheelSlipFL", f32)) + Square(Number(f, "wheelSlipFR", f32))
           + Square(Number(f, "wheelSlipRL", f32)) + Square(Number(f, "wheelSlipRR", f32))
  {
    SummaryThrough(f, prev, f32, "totalWheelSlip");
    SquareNonNegative(Number(f, "wheelSlipFL", f32));
    SquareNonNegative(Number(f, "wheelSlipFR", f32));
    SquareNonNegative(Number(f, "wheelSlipRL", f32));
    SquareNonNegative(Number(f, "wheelSlipRR", f32));
  }

  lemma SquareNonNegative(x: real)
    ensures Square(x) >= 0.0
  {
    if x < 0.0 {
      assert Square(x) == (-x) * (-x);
    }
  }

  /** The session id is the start of the hour the frame's time falls in, in seconds. */
  lemma DerivedSessionID(f: Frame, prev: Option<Frame>, f32: nat -> real)
    ensures var d := WithDerived(f, prev, f32);
      "sessionID" in d && d["sessionID"] == SessionID(f, f32)
    ensures var s, t := SessionID(f, f32).i, Number(f, "t", f32);
      SessionID(f, f32).Int? && s % 3600 == 0 && s as real <= t < s as real + 3600.0
  {
    SummaryThrough(f, prev, f32, "sessionID");
    HourStart(f, f32);
  }

  lemma HourStart(g: Frame, f32: nat -> real)
    ensures var s, t := SessionID(g, f32).i, Number(g, "t", f32);
      SessionID(g, f32).Int? && s % 3600 == 0 && s as real <= t < s as real + 3600.0
  {
    var t := Number(g, "t", f32);
    var h := (t / 3600.0).Floor;
    assert h as real <= t / 3600.0 < h as real + 1.0;
    assert (h * 3600) % 3600 == 0;
  }
}
