/**
 * The field layout of the Forza Motorsport "dash" packet, in wire order: the
 * reads `ForzaDecoder.decode` performs with its moving offset. `Base` is the
 * first 311 bytes; `Extension` the tyre wear and track ordinal that follow
 * when the buffer is long enough. Each `...Shape` lemma states the width of
 * the walk, that it ends in a read that throws past the end, and that it
 * writes none of the keys the decoder adds afterwards. Some fields stand
 * alone in a group, and an `...At` lemma states the offset they are read at.
 */
module ForzaLayout {
  import opened Wire
  import opened Frames
  import opened Layout

  /** The keys the decoder sets after the walk: the stamp and the derived fields. */
  const FrameKeys: set<string> := {
    "t", "packet_type", "RaceID", "Shifting",
    "NormalizedSuspensionVelocityFrontLeft", "NormalizedSuspensionVelocityFrontRight",
    "NormalizedSuspensionVelocityRearLeft", "NormalizedSuspensionVelocityRearRight"}

  /** The reads every packet gets, in wire order: src/decoders/forza-motorsport.ts:172-301 */
  const BasePinned: set<string> := {"IsRaceOn", "TimestampMS", "CurrentLap", "CurrentRaceTime", "LapNumber", "Gear", "Steer"}

  const BaseIsRaceOn: Layout := [
    Field("IsRaceOn", One(I32))
  ]

  const BaseTimestampMS: Layout := [
    Field("TimestampMS", One(U32))
  ]

  const BaseA: Layout := [
    Field("EngineMaxRpm", One(F32)),
    Field("EngineIdleRpm", One(F32)),
    Field("CurrentEngineRpm", One(F32)),
    Field("AccelerationX", One(F32)),
    Field("AccelerationY", One(F32)),
    Field("AccelerationZ", One(F32))
  ]

  const BaseB: Layout := [
    Field("VelocityX", One(F32)),
    Field("VelocityY", One(F32)),
    Field("VelocityZ", One(F32)),
    Field("AngularVelocityX", One(F32)),
    Field("AngularVelocityY", One(F32)),
    Field("AngularVelocityZ", One(F32))
  ]

  const BaseC: Layout := [
    Field("Yaw", One(F32)),
    Field("Pitch", One(F32)),
    Field("Roll", One(F32)),
    Field("NormalizedSuspensionTravelFrontLeft", One(F32)),
    Field("NormalizedSuspensionTravelFrontRight", One(F32)),
    Field("NormalizedSuspensionTravelRearLeft", One(F32))
  ]

  const BaseD: Layout := [
    Field("NormalizedSuspensionTravelRearRight", One(F32)),
    Field("TireSlipRatioFrontLeft", One(F32)),
    Field("TireSlipRatioFrontRight", One(F32)),
    Field("TireSlipRatioRearLeft", One(F32)),
    Field("TireSlipRatioRearRight", One(F32)),
    Field("WheelRotationSpeedFrontLeft", One(F32))
  ]

  const BaseE: Layout := [
    Field("WheelRotationSpeedFrontRight", One(F32)),
    Field("WheelRotationSpeedRearLeft", One(F32)),
    Field("WheelRotationSpeedRearRight", One(F32)),
    Field("WheelOnRumbleStripFrontLeft", One(I32)),
    Field("WheelOnRumbleStripFrontRight", One(I32)),
    Field("WheelOnRumbleStripRearLeft", One(I32))
  ]

  const BaseF: Layout := [
    Field("WheelOnRumbleStripRearRight", One(I32)),
    Field("WheelInPuddleDepthFrontLeft", One(F32)),
    Field("WheelInPuddleDepthFrontRight", One(F32)),
    Field("WheelInPuddleDepthRearLeft", One(F32)),
    Field("WheelInPuddleDepthRearRight", One(F32)),
    Field("SurfaceRumbleFrontLeft", One(F32))
  ]

  const BaseG: Layout := [
    Field("SurfaceRumbleFrontRight", One(F32)),
    Field("SurfaceRumbleRearLeft", One(F32)),
    Field("SurfaceRumbleRearRight", One(F32)),
    Field("TireSlipAngleFrontLeft", One(F32)),
    Field("TireSlipAngleFrontRight", One(F32)),
    Field("TireSlipAngleRearLeft", One(F32))
  ]

  const BaseH: Layout := [
    Field("TireSlipAngleRearRight", One(F32)),
    Field("TireCombinedSlipFrontLeft", One(F32)),
    Field("TireCombinedSlipFrontRight", One(F32)),
    Field("TireCombinedSlipRearLeft", One(F32)),
    Field("TireCombinedSlipRearRight", One(F32)),
    Field("SuspensionTravelMetersFrontLeft", One(F32))
  ]

  const BaseI: Layout := [
    Field("SuspensionTravelMetersFrontRight", One(F32)),
    Field("SuspensionTravelMetersRearLeft", One(F32)),
    Field("SuspensionTravelMetersRearRight", One(F32)),
    Field("CarOrdinal", One(I32)),
    Field("CarClass", One(I32)),
    Field("CarPerformanceIndex", One(I32))
  ]

  const BaseJ: Layout := [
    Field("DrivetrainType", One(I32)),
    Field("NumCylinders", One(I32)),
    Field("PositionX", One(F32)),
    Field("PositionY", One(F32)),
    Field("PositionZ", One(F32)),
    Field("Speed", One(F32))
  ]

  const BaseK: Layout := [
    Field("Power", One(F32)),
    Field("Torque", One(F32)),
    Field("TireTempFrontLeft", One(F32)),
    Field("TireTempFrontRight", One(F32)),
    Field("TireTempRearLeft", One(F32)),
    Field("TireTempRearRight", One(F32))
  ]

  const BaseL: Layout := [
    Field("Boost", One(F32)),
    Field("Fuel", One(F32)),
    Field("DistanceTraveled", One(F32)),
    Field("BestLap", One(F32)),
    Field("LastLap", One(F32))
  ]

  const BaseCurrentLap: Layout := [
    Field("CurrentLap", One(F32))
  ]

  const BaseCurrentRaceTime: Layout := [
    Field("CurrentRaceTime", One(F32))
  ]

  const BaseLapNumber: Layout := [
    Field("LapNumber", One(U16))
  ]

  const BaseM: Layout := [
    Field("RacePosition", One(U8)),
    Field("Accel", One(U8)),
    Field("Brake", One(U8)),
    Field("Clutch", One(U8)),
    Field("HandBrake", One(U8))
  ]

  const BaseGear: Layout := [
    Field("Gear", One(U8))
  ]

  const BaseSteer: Layout := [
    Field("Steer", One(I8))
  ]

  const BaseN: Layout := [
    Field("NormalizedDrivingLine", One(I8)),
    Field("NormalizedAIBrakeDifference", One(I8))
  ]

  lemma BaseIsRaceOnWidth()
    ensures Width(BaseIsRaceOn) == 4
  {
  }

  lemma BaseIsRaceOnKeepsFrameKeys()
    ensures Keeps(BaseIsRaceOn, FrameKeys)
  {
  }

  lemma BaseTimestampMSWidth()
    ensures Width(BaseTimestampMS) == 4
  {
  }

  lemma BaseTimestampMSKeepsFrameKeys()
    ensures Keeps(BaseTimestampMS, FrameKeys)
  {
  }

  lemma BaseAWidth()
    ensures Width(BaseA) == 24
  {
  }

  lemma BaseAKeepsFrameKeys()
    ensures Keeps(BaseA, FrameKeys)
  {
  }

  lemma BaseAKeepsPinned()
    ensures Keeps(BaseA, BasePinned)
  {
  }

  lemma BaseBWidth()
    ensures Width(BaseB) == 24
  {
  }

  lemma BaseBKeepsFrameKeys()
    ensures Keeps(BaseB, FrameKeys)
  {
  }

  lemma BaseBKeepsPinned()
    ensures Keeps(BaseB, BasePinned)
  {
  }

  lemma BaseCWidth()
    ensures Width(BaseC) == 24
  {
  }

  lemma BaseCKeepsFrameKeys()
    ensures Keeps(BaseC, FrameKeys)
  {
  }

  lemma BaseCKeepsPinned()
    ensures Keeps(BaseC, BasePinned)
  {
  }

  lemma BaseDWidth()
    ensures Width(BaseD) == 24
  {
  }

  lemma BaseDKeepsFrameKeys()
    ensures Keeps(BaseD, FrameKeys)
  {
  }

  lemma BaseDKeepsPinned()
    ensures Keeps(BaseD, BasePinned)
  {
  }

  lemma BaseEWidth()
    ensures Width(BaseE) == 24
  {
  }

  lemma BaseEKeepsFrameKeys()
    ensures Keeps(BaseE, FrameKeys)
  {
  }

  lemma BaseEKeepsPinned()
    ensures Keeps(BaseE, BasePinned)
  {
  }

  lemma BaseFWidth()
    ensures Width(BaseF) == 24
  {
  }

  lemma BaseFKeepsFrameKeys()
    ensures Keeps(BaseF, FrameKeys)
  {
  }

  lemma BaseFKeepsPinned()
    ensures Keeps(BaseF, BasePinned)
  {
  }

  lemma BaseGWidth()
    ensures Width(BaseG) == 24
  {
  }

  lemma BaseGKeepsFrameKeys()
    ensures Keeps(BaseG, FrameKeys)
  {
  }

  lemma BaseGKeepsPinned()
    ensures Keeps(BaseG, BasePinned)
  {
  }

  lemma BaseHWidth()
    ensures Width(BaseH) == 24
  {
  }

  lemma BaseHKeepsFrameKeys()
    ensures Keeps(BaseH, FrameKeys)
  {
  }

  lemma BaseHKeepsPinned()
    ensures Keeps(BaseH, BasePinned)
  {
  }

  lemma BaseIWidth()
    ensures Width(BaseI) == 24
  {
  }

  lemma BaseIKeepsFrameKeys()
    ensures Keeps(BaseI, FrameKeys)
  {
  }

  lemma BaseIKeepsPinned()
    ensures Keeps(BaseI, BasePinned)
  {
  }

  lemma BaseJWidth()
    ensures Width(BaseJ) == 24
  {
  }

  lemma BaseJKeepsFrameKeys()
    ensures Keeps(BaseJ, FrameKeys)
  {
  }

  lemma BaseJKeepsPinned()
    ensures Keeps(BaseJ, BasePinned)
  {
  }

  lemma BaseKWidth()
    ensures Width(BaseK) == 24
  {
  }

  lemma BaseKKeepsFrameKeys()
    ensures Keeps(BaseK, FrameKeys)
  {
  }

  lemma BaseKKeepsPinned()
    ensures Keeps(BaseK, BasePinned)
  {
  }

  lemma BaseLWidth()
    ensures Width(BaseL) == 20
  {
  }

  lemma BaseLKeepsFrameKeys()
    ensures Keeps(BaseL, FrameKeys)
  {
  }

  lemma BaseLKeepsPinned()
    ensures Keeps(BaseL, BasePinned)
  {
  }

  lemma BaseCurrentLapWidth()
    ensures Width(BaseCurrentLap) == 4
  {
  }

  lemma BaseCurrentLapKeepsFrameKeys()
    ensures Keeps(BaseCurrentLap, FrameKeys)
  {
  }

  lemma BaseCurrentRaceTimeWidth()
    ensures Width(BaseCurrentRaceTime) == 4
  {
  }

  lemma BaseCurrentRaceTimeKeepsFrameKeys()
    ensures Keeps(BaseCurrentRaceTime, FrameKeys)
  {
  }

  lemma BaseLapNumberWidth()
    ensures Width(BaseLapNumber) == 2
  {
  }

  lemma BaseLapNumberKeepsFrameKeys()
    ensures Keeps(BaseLapNumber, FrameKeys)
  {
  }

  lemma BaseMWidth()
    ensures Width(BaseM) == 5
  {
  }

  lemma BaseMKeepsFrameKeys()
    ensures Keeps(BaseM, FrameKeys)
  {
  }

  lemma BaseMKeepsPinned()
    ensures Keeps(BaseM, BasePinned)
  {
  }

  lemma BaseGearWidth()
    ensures Width(BaseGear) == 1
  {
  }

  lemma BaseGearKeepsFrameKeys()
    ensures Keeps(BaseGear, FrameKeys)
  {
  }

  lemma BaseSteerWidth()
    ensures Width(BaseSteer) == 1
  {
  }

  lemma BaseSteerKeepsFrameKeys()
    ensures Keeps(BaseSteer, FrameKeys)
  {
  }

  lemma BaseNWidth()
    ensures Width(BaseN) == 2
  {
  }

  lemma BaseNKeepsFrameKeys()
    ensures Keeps(BaseN, FrameKeys)
  {
  }

  lemma BaseNKeepsPinned()
    ensures Keeps(BaseN, BasePinned)
  {
  }

  const Base: Layout := BaseIsRaceOn + BaseTimestampMS + BaseA + BaseB + BaseC + BaseD + BaseE + BaseF + BaseG + BaseH + BaseI + BaseJ + BaseK + BaseL + BaseCurrentLap + BaseCurrentRaceTime + BaseLapNumber + BaseM + BaseGear + BaseSteer + BaseN

  lemma BaseShape()
    ensures Width(Base) == 311 && EndsStrict(Base) && Keeps(Base, FrameKeys)
  {
    BaseIsRaceOnWidth();
    BaseIsRaceOnKeepsFrameKeys();
    BaseTimestampMSWidth();
    BaseTimestampMSKeepsFrameKeys();
    BaseAWidth();
    BaseAKeepsFrameKeys();
    BaseBWidth();
    BaseBKeepsFrameKeys();
    BaseCWidth();
    BaseCKeepsFrameKeys();
    BaseDWidth();
    BaseDKeepsFrameKeys();
    BaseEWidth();
    BaseEKeepsFrameKeys();
    BaseFWidth();
    BaseFKeepsFrameKeys();
    BaseGWidth();
    BaseGKeepsFrameKeys();
    BaseHWidth();
    BaseHKeepsFrameKeys();
    BaseIWidth();
    BaseIKeepsFrameKeys();
    BaseJWidth();
    BaseJKeepsFrameKeys();
    BaseKWidth();
    BaseKKeepsFrameKeys();
    BaseLWidth();
    BaseLKeepsFrameKeys();
    BaseCurrentLapWidth();
    BaseCurrentLapKeepsFrameKeys();
    BaseCurrentRaceTimeWidth();
    BaseCurrentRaceTimeKeepsFrameKeys();
    BaseLapNumberWidth();
    BaseLapNumberKeepsFrameKeys();
    BaseMWidth();
    BaseMKeepsFrameKeys();
    BaseGearWidth();
    BaseGearKeepsFrameKeys();
    BaseSteerWidth();
    BaseSteerKeepsFrameKeys();
    BaseNWidth();
    BaseNKeepsFrameKeys();
    WidthAppend(BaseIsRaceOn, BaseTimestampMS);
    KeepsAppend(BaseIsRaceOn, BaseTimestampMS, FrameKeys);
    WidthAppend(BaseIsRaceOn + BaseTimestampMS, BaseA);
    KeepsAppend(BaseIsRaceOn + BaseTimestampMS, BaseA, FrameKeys);
    WidthAppend(BaseIsRaceOn + BaseTimestampMS + BaseA, BaseB);
    KeepsAppend(BaseIsRaceOn + BaseTimestampMS + BaseA, BaseB, FrameKeys);
    WidthAppend(BaseIsRaceOn + BaseTimestampMS + BaseA + BaseB, BaseC);
    KeepsAppend(BaseIsRaceOn + BaseTimestampMS + BaseA + BaseB, BaseC, FrameKeys);
    WidthAppend(BaseIsRaceOn + BaseTimestampMS + BaseA + BaseB + BaseC, BaseD);
    KeepsAppend(BaseIsRaceOn + BaseTimestampMS + BaseA + BaseB + BaseC, BaseD, FrameKeys);
    WidthAppend(BaseIsRaceOn + BaseTimestampMS + BaseA + BaseB + BaseC + BaseD, BaseE);
    KeepsAppend(BaseIsRaceOn + BaseTimestampMS + BaseA + BaseB + BaseC + BaseD, BaseE, FrameKeys);
    WidthAppend(BaseIsRaceOn + BaseTimestampMS + BaseA + BaseB + BaseC + BaseD + BaseE, BaseF);
    KeepsAppend(BaseIsRaceOn + BaseTimestampMS + BaseA + BaseB + BaseC + BaseD + BaseE, BaseF, FrameKeys);
    WidthAppend(BaseIsRaceOn + BaseTimestampMS + BaseA + BaseB + BaseC + BaseD + BaseE + BaseF, BaseG);
    KeepsAppend(BaseIsRaceOn + BaseTimestampMS + BaseA + BaseB + BaseC + BaseD + BaseE + BaseF, BaseG, FrameKeys);
    WidthAppend(BaseIsRaceOn + BaseTimestampMS + BaseA + BaseB + BaseC + BaseD + BaseE + BaseF + BaseG, BaseH);
    KeepsAppend(BaseIsRaceOn + BaseTimestampMS + BaseA + BaseB + BaseC + BaseD + BaseE + BaseF + BaseG, BaseH, FrameKeys);
    WidthAppend(BaseIsRaceOn + BaseTimestampMS + BaseA + BaseB + BaseC + BaseD + BaseE + BaseF + BaseG + BaseH, BaseI);
    KeepsAppend(BaseIsRaceOn + BaseTimestampMS + BaseA + BaseB + BaseC + BaseD + BaseE + BaseF + BaseG + BaseH, BaseI, FrameKeys);
    WidthAppend(BaseIsRaceOn + BaseTimestampMS + BaseA + BaseB + BaseC + BaseD + BaseE + BaseF + BaseG + BaseH + BaseI, BaseJ);
    KeepsAppend(BaseIsRaceOn + BaseTimestampMS + BaseA + BaseB + BaseC + BaseD + BaseE + BaseF + BaseG + BaseH + BaseI, BaseJ, FrameKeys);
    WidthAppend(BaseIsRaceOn + BaseTimestampMS + BaseA + BaseB + BaseC + BaseD + BaseE + BaseF + BaseG + BaseH + BaseI + BaseJ, BaseK);
    KeepsAppend(BaseIsRaceOn + BaseTimestampMS + BaseA + BaseB + BaseC + BaseD + BaseE + BaseF + BaseG + BaseH + BaseI + BaseJ, BaseK, FrameKeys);
    WidthAppend(BaseIsRaceOn + BaseTimestampMS + BaseA + BaseB + BaseC + BaseD + BaseE + BaseF + BaseG + BaseH + BaseI + BaseJ + BaseK, BaseL);
    KeepsAppend(BaseIsRaceOn + BaseTimestampMS + BaseA + BaseB + BaseC + BaseD + BaseE + BaseF + BaseG + BaseH + BaseI + BaseJ + BaseK, BaseL, FrameKeys);
    WidthAppend(BaseIsRaceOn + BaseTimestampMS + BaseA + BaseB + BaseC + BaseD + BaseE + BaseF + BaseG + BaseH + BaseI + BaseJ + BaseK + BaseL, BaseCurrentLap);
    KeepsAppend(BaseIsRaceOn + BaseTimestampMS + BaseA + BaseB + BaseC + BaseD + BaseE + BaseF + BaseG + BaseH + BaseI + BaseJ + BaseK + BaseL, BaseCurrentLap, FrameKeys);
    WidthAppend(BaseIsRaceOn + BaseTimestampMS + BaseA + BaseB + BaseC + BaseD + BaseE + BaseF + BaseG + BaseH + BaseI + BaseJ + BaseK + BaseL + BaseCurrentLap, BaseCurrentRaceTime);
    KeepsAppend(BaseIsRaceOn + BaseTimestampMS + BaseA + BaseB + BaseC + BaseD + BaseE + BaseF + BaseG + BaseH + BaseI + BaseJ + BaseK + BaseL + BaseCurrentLap, BaseCurrentRaceTime, FrameKeys);
    WidthAppend(BaseIsRaceOn + BaseTimestampMS + BaseA + BaseB + BaseC + BaseD + BaseE + BaseF + BaseG + BaseH + BaseI + BaseJ + BaseK + BaseL + BaseCurrentLap + BaseCurrentRaceTime, BaseLapNumber);
    KeepsAppend(BaseIsRaceOn + BaseTimestampMS + BaseA + BaseB + BaseC + BaseD + BaseE + BaseF + BaseG + BaseH + BaseI + BaseJ + BaseK + BaseL + BaseCurrentLap + BaseCurrentRaceTime, BaseLapNumber, FrameKeys);
    WidthAppend(BaseIsRaceOn + BaseTimestampMS + BaseA + BaseB + BaseC + BaseD + BaseE + BaseF + BaseG + BaseH + BaseI + BaseJ + BaseK + BaseL + BaseCurrentLap + BaseCurrentRaceTime + BaseLapNumber, BaseM);
    KeepsAppend(BaseIsRaceOn + BaseTimestampMS + BaseA + BaseB + BaseC + BaseD + BaseE + BaseF + BaseG + BaseH + BaseI + BaseJ + BaseK + BaseL + BaseCurrentLap + BaseCurrentRaceTime + BaseLapNumber, BaseM, FrameKeys);
    WidthAppend(BaseIsRaceOn + BaseTimestampMS + BaseA + BaseB + BaseC + BaseD + BaseE + BaseF + BaseG + BaseH + BaseI + BaseJ + BaseK + BaseL + BaseCurrentLap + BaseCurrentRaceTime + BaseLapNumber + BaseM, BaseGear);
    KeepsAppend(BaseIsRaceOn + BaseTimestampMS + BaseA + BaseB + BaseC + BaseD + BaseE + BaseF + BaseG + BaseH + BaseI + BaseJ + BaseK + BaseL + BaseCurrentLap + BaseCurrentRaceTime + BaseLapNumber + BaseM, BaseGear, FrameKeys);
    WidthAppend(BaseIsRaceOn + BaseTimestampMS + BaseA + BaseB + BaseC + BaseD + BaseE + BaseF + BaseG + BaseH + BaseI + BaseJ + BaseK + BaseL + BaseCurrentLap + BaseCurrentRaceTime + BaseLapNumber + BaseM + BaseGear, BaseSteer);
    KeepsAppend(BaseIsRaceOn + BaseTimestampMS + BaseA + BaseB + BaseC + BaseD + BaseE + BaseF + BaseG + BaseH + BaseI + BaseJ + BaseK + BaseL + BaseCurrentLap + BaseCurrentRaceTime + BaseLapNumber + BaseM + BaseGear, BaseSteer, FrameKeys);
    WidthAppend(BaseIsRaceOn + BaseTimestampMS + BaseA + BaseB + BaseC + BaseD + BaseE + BaseF + BaseG + BaseH + BaseI + BaseJ + BaseK + BaseL + BaseCurrentLap + BaseCurrentRaceTime + BaseLapNumber + BaseM + BaseGear + BaseSteer, BaseN);
    KeepsAppend(BaseIsRaceOn + BaseTimestampMS + BaseA + BaseB + BaseC + BaseD + BaseE + BaseF + BaseG + BaseH + BaseI + BaseJ + BaseK + BaseL + BaseCurrentLap + BaseCurrentRaceTime + BaseLapNumber + BaseM + BaseGear + BaseSteer, BaseN, FrameKeys);
    assert EndsStrict(BaseN);
    EndsStrictAppend(BaseIsRaceOn + BaseTimestampMS + BaseA + BaseB + BaseC + BaseD + BaseE + BaseF + BaseG + BaseH + BaseI + BaseJ + BaseK + BaseL + BaseCurrentLap + BaseCurrentRaceTime + BaseLapNumber + BaseM + BaseGear + BaseSteer, BaseN);
  }

  /** `IsRaceOn` holds what its own read at offset 0 produced. */
  lemma BaseIsRaceOnAt(buf: seq<byte>, pos: nat, acc: Frame)
    requires ReadFrom(buf, pos, Base, acc).Some?
    ensures ReadKind(buf, pos + 0, One(I32)).Some?
    ensures var m := ReadFrom(buf, pos, Base, acc).value;
      "IsRaceOn" in m && m["IsRaceOn"] == ReadKind(buf, pos + 0, One(I32)).value
  {
    BaseNKeepsPinned();
    KeepsNotNamed(BaseN, BasePinned, "IsRaceOn");
    ReadFromPrefix(buf, pos, BaseIsRaceOn + BaseTimestampMS + BaseA + BaseB + BaseC + BaseD + BaseE + BaseF + BaseG + BaseH + BaseI + BaseJ + BaseK + BaseL + BaseCurrentLap + BaseCurrentRaceTime + BaseLapNumber + BaseM + BaseGear + BaseSteer, BaseN, acc, "IsRaceOn");
    assert NotNamed(BaseSteer, "IsRaceOn");
    ReadFromPrefix(buf, pos, BaseIsRaceOn + BaseTimestampMS + BaseA + BaseB + BaseC + BaseD + BaseE + BaseF + BaseG + BaseH + BaseI + BaseJ + BaseK + BaseL + BaseCurrentLap + BaseCurrentRaceTime + BaseLapNumber + BaseM + BaseGear, BaseSteer, acc, "IsRaceOn");
    assert NotNamed(BaseGear, "IsRaceOn");
    ReadFromPrefix(buf, pos, BaseIsRaceOn + BaseTimestampMS + BaseA + BaseB + BaseC + BaseD + BaseE + BaseF + BaseG + BaseH + BaseI + BaseJ + BaseK + BaseL + BaseCurrentLap + BaseCurrentRaceTime + BaseLapNumber + BaseM, BaseGear, acc, "IsRaceOn");
    BaseMKeepsPinned();
    KeepsNotNamed(BaseM, BasePinned, "IsRaceOn");
    ReadFromPrefix(buf, pos, BaseIsRaceOn + BaseTimestampMS + BaseA + BaseB + BaseC + BaseD + BaseE + BaseF + BaseG + BaseH + BaseI + BaseJ + BaseK + BaseL + BaseCurrentLap + BaseCurrentRaceTime + BaseLapNumber, BaseM, acc, "IsRaceOn");
    assert NotNamed(BaseLapNumber, "IsRaceOn");
    ReadFromPrefix(buf, pos, BaseIsRaceOn + BaseTimestampMS + BaseA + BaseB + BaseC + BaseD + BaseE + BaseF + BaseG + BaseH + BaseI + BaseJ + BaseK + BaseL + BaseCurrentLap + BaseCurrentRaceTime, BaseLapNumber, acc, "IsRaceOn");
    assert NotNamed(BaseCurrentRaceTime, "IsRaceOn");
    ReadFromPrefix(buf, pos, BaseIsRaceOn + BaseTimestampMS + BaseA + BaseB + BaseC + BaseD + BaseE + BaseF + BaseG + BaseH + BaseI + BaseJ + BaseK + BaseL + BaseCurrentLap, BaseCurrentRaceTime, acc, "IsRaceOn");
    assert NotNamed(BaseCurrentLap, "IsRaceOn");
    ReadFromPrefix(buf, pos, BaseIsRaceOn + BaseTimestampMS + BaseA + BaseB + BaseC + BaseD + BaseE + BaseF + BaseG + BaseH + BaseI + BaseJ + BaseK + BaseL, BaseCurrentLap, acc, "IsRaceOn");
    BaseLKeepsPinned();
    KeepsNotNamed(BaseL, BasePinned, "IsRaceOn");
    ReadFromPrefix(buf, pos, BaseIsRaceOn + BaseTimestampMS + BaseA + BaseB + BaseC + BaseD + BaseE + BaseF + BaseG + BaseH + BaseI + BaseJ + BaseK, BaseL, acc, "IsRaceOn");
    BaseKKeepsPinned();
    KeepsNotNamed(BaseK, BasePinned, "IsRaceOn");
    ReadFromPrefix(buf, pos, BaseIsRaceOn + BaseTimestampMS + BaseA + BaseB + BaseC + BaseD + BaseE + BaseF + BaseG + BaseH + BaseI + BaseJ, BaseK, acc, "IsRaceOn");
    BaseJKeepsPinned();
    KeepsNotNamed(BaseJ, BasePinned, "IsRaceOn");
    ReadFromPrefix(buf, pos, BaseIsRaceOn + BaseTimestampMS + BaseA + BaseB + BaseC + BaseD + BaseE + BaseF + BaseG + BaseH + BaseI, BaseJ, acc, "IsRaceOn");
    BaseIKeepsPinned();
    KeepsNotNamed(BaseI, BasePinned, "IsRaceOn");
    ReadFromPrefix(buf, pos, BaseIsRaceOn + BaseTimestampMS + BaseA + BaseB + BaseC + BaseD + BaseE + BaseF + BaseG + BaseH, BaseI, acc, "IsRaceOn");
    BaseHKeepsPinned();
    KeepsNotNamed(BaseH, BasePinned, "IsRaceOn");
    ReadFromPrefix(buf, pos, BaseIsRaceOn + BaseTimestampMS + BaseA + BaseB + BaseC + BaseD + BaseE + BaseF + BaseG, BaseH, acc, "IsRaceOn");
    BaseGKeepsPinned();
    KeepsNotNamed(BaseG, BasePinned, "IsRaceOn");
    ReadFromPrefix(buf, pos, BaseIsRaceOn + BaseTimestampMS + BaseA + BaseB + BaseC + BaseD + BaseE + BaseF, BaseG, acc, "IsRaceOn");
    BaseFKeepsPinned();
    KeepsNotNamed(BaseF, BasePinned, "IsRaceOn");
    ReadFromPrefix(buf, pos, BaseIsRaceOn + BaseTimestampMS + BaseA + BaseB + BaseC + BaseD + BaseE, BaseF, acc, "IsRaceOn");
    BaseEKeepsPinned();
    KeepsNotNamed(BaseE, BasePinned, "IsRaceOn");
    ReadFromPrefix(buf, pos, BaseIsRaceOn + BaseTimestampMS + BaseA + BaseB + BaseC + BaseD, BaseE, acc, "IsRaceOn");
    BaseDKeepsPinned();
    KeepsNotNamed(BaseD, BasePinned, "IsRaceOn");
    ReadFromPrefix(buf, pos, BaseIsRaceOn + BaseTimestampMS + BaseA + BaseB + BaseC, BaseD, acc, "IsRaceOn");
    BaseCKeepsPinned();
    KeepsNotNamed(BaseC, BasePinned, "IsRaceOn");
    ReadFromPrefix(buf, pos, BaseIsRaceOn + BaseTimestampMS + BaseA + BaseB, BaseC, acc, "IsRaceOn");
    BaseBKeepsPinned();
    KeepsNotNamed(BaseB, BasePinned, "IsRaceOn");
    ReadFromPrefix(buf, pos, BaseIsRaceOn + BaseTimestampMS + BaseA, BaseB, acc, "IsRaceOn");
    BaseAKeepsPinned();
    KeepsNotNamed(BaseA, BasePinned, "IsRaceOn");
    ReadFromPrefix(buf, pos, BaseIsRaceOn + BaseTimestampMS, BaseA, acc, "IsRaceOn");
    assert NotNamed(BaseTimestampMS, "IsRaceOn");
    ReadFromPrefix(buf, pos, BaseIsRaceOn, BaseTimestampMS, acc, "IsRaceOn");
    FieldFirst(buf, pos, "IsRaceOn", One(I32), acc);
  }

  /** `TimestampMS` holds what its own read at offset 4 produced. */
  lemma BaseTimestampMSAt(buf: seq<byte>, pos: nat, acc: Frame)
    requires ReadFrom(buf, pos, Base, acc).Some?
    ensures ReadKind(buf, pos + 4, One(U32)).Some?
    ensures var m := ReadFrom(buf, pos, Base, acc).value;
      "TimestampMS" in m && m["TimestampMS"] == ReadKind(buf, pos + 4, One(U32)).value
  {
    BaseNKeepsPinned();
    KeepsNotNamed(BaseN, BasePinned, "TimestampMS");
    ReadFromPrefix(buf, pos, BaseIsRaceOn + BaseTimestampMS + BaseA + BaseB + BaseC + BaseD + BaseE + BaseF + BaseG + BaseH + BaseI + BaseJ + BaseK + BaseL + BaseCurrentLap + BaseCurrentRaceTime + BaseLapNumber + BaseM + BaseGear + BaseSteer, BaseN, acc, "TimestampMS");
    assert NotNamed(BaseSteer, "TimestampMS");
    ReadFromPrefix(buf, pos, BaseIsRaceOn + BaseTimestampMS + BaseA + BaseB + BaseC + BaseD + BaseE + BaseF + BaseG + BaseH + BaseI + BaseJ + BaseK + BaseL + BaseCurrentLap + BaseCurrentRaceTime + BaseLapNumber + BaseM + BaseGear, BaseSteer, acc, "TimestampMS");
    assert NotNamed(BaseGear, "TimestampMS");
    ReadFromPrefix(buf, pos, BaseIsRaceOn + BaseTimestampMS + BaseA + BaseB + BaseC + BaseD + BaseE + BaseF + BaseG + BaseH + BaseI + BaseJ + BaseK + BaseL + BaseCurrentLap + BaseCurrentRaceTime + BaseLapNumber + BaseM, BaseGear, acc, "TimestampMS");
    BaseMKeepsPinned();
    KeepsNotNamed(BaseM, BasePinned, "TimestampMS");
    ReadFromPrefix(buf, pos, BaseIsRaceOn + BaseTimestampMS + BaseA + BaseB + BaseC + BaseD + BaseE + BaseF + BaseG + BaseH + BaseI + BaseJ + BaseK + BaseL + BaseCurrentLap + BaseCurrentRaceTime + BaseLapNumber, BaseM, acc, "TimestampMS");
    assert NotNamed(BaseLapNumber, "TimestampMS");
    ReadFromPrefix(buf, pos, BaseIsRaceOn + BaseTimestampMS + BaseA + BaseB + BaseC + BaseD + BaseE + BaseF + BaseG + BaseH + BaseI + BaseJ + BaseK + BaseL + BaseCurrentLap + BaseCurrentRaceTime, BaseLapNumber, acc, "TimestampMS");
    assert NotNamed(BaseCurrentRaceTime, "TimestampMS");
    ReadFromPrefix(buf, pos, BaseIsRaceOn + BaseTimestampMS + BaseA + BaseB + BaseC + BaseD + BaseE + BaseF + BaseG + BaseH + BaseI + BaseJ + BaseK + BaseL + BaseCurrentLap, BaseCurrentRaceTime, acc, "TimestampMS");
    assert NotNamed(BaseCurrentLap, "TimestampMS");
    ReadFromPrefix(buf, pos, BaseIsRaceOn + BaseTimestampMS + BaseA + BaseB + BaseC + BaseD + BaseE + BaseF + BaseG + BaseH + BaseI + BaseJ + BaseK + BaseL, BaseCurrentLap, acc, "TimestampMS");
    BaseLKeepsPinned();
    KeepsNotNamed(BaseL, BasePinned, "TimestampMS");
    ReadFromPrefix(buf, pos, BaseIsRaceOn + BaseTimestampMS + BaseA + BaseB + BaseC + BaseD + BaseE + BaseF + BaseG + BaseH + BaseI + BaseJ + BaseK, BaseL, acc, "TimestampMS");
    BaseKKeepsPinned();
    KeepsNotNamed(BaseK, BasePinned, "TimestampMS");
    ReadFromPrefix(buf, pos, BaseIsRaceOn + BaseTimestampMS + BaseA + BaseB + BaseC + BaseD + BaseE + BaseF + BaseG + BaseH + BaseI + BaseJ, BaseK, acc, "TimestampMS");
    BaseJKeepsPinned();
    KeepsNotNamed(BaseJ, BasePinned, "TimestampMS");
    ReadFromPrefix(buf, pos, BaseIsRaceOn + BaseTimestampMS + BaseA + BaseB + BaseC + BaseD + BaseE + BaseF + BaseG + BaseH + BaseI, BaseJ, acc, "TimestampMS");
    BaseIKeepsPinned();
    KeepsNotNamed(BaseI, BasePinned, "TimestampMS");
    ReadFromPrefix(buf, pos, BaseIsRaceOn + BaseTimestampMS + BaseA + BaseB + BaseC + BaseD + BaseE + BaseF + BaseG + BaseH, BaseI, acc, "TimestampMS");
    BaseHKeepsPinned();
    KeepsNotNamed(BaseH, BasePinned, "TimestampMS");
    ReadFromPrefix(buf, pos, BaseIsRaceOn + BaseTimestampMS + BaseA + BaseB + BaseC + BaseD + BaseE + BaseF + BaseG, BaseH, acc, "TimestampMS");
    BaseGKeepsPinned();
    KeepsNotNamed(BaseG, BasePinned, "TimestampMS");
    ReadFromPrefix(buf, pos, BaseIsRaceOn + BaseTimestampMS + BaseA + BaseB + BaseC + BaseD + BaseE + BaseF, BaseG, acc, "TimestampMS");
    BaseFKeepsPinned();
    KeepsNotNamed(BaseF, BasePinned, "TimestampMS");
    ReadFromPrefix(buf, pos, BaseIsRaceOn + BaseTimestampMS + BaseA + BaseB + BaseC + BaseD + BaseE, BaseF, acc, "TimestampMS");
    BaseEKeepsPinned();
    KeepsNotNamed(BaseE, BasePinned, "TimestampMS");
    ReadFromPrefix(buf, pos, BaseIsRaceOn + BaseTimestampMS + BaseA + BaseB + BaseC + BaseD, BaseE, acc, "TimestampMS");
    BaseDKeepsPinned();
    KeepsNotNamed(BaseD, BasePinned, "TimestampMS");
    ReadFromPrefix(buf, pos, BaseIsRaceOn + BaseTimestampMS + BaseA + BaseB + BaseC, BaseD, acc, "TimestampMS");
    BaseCKeepsPinned();
    KeepsNotNamed(BaseC, BasePinned, "TimestampMS");
    ReadFromPrefix(buf, pos, BaseIsRaceOn + BaseTimestampMS + BaseA + BaseB, BaseC, acc, "TimestampMS");
    BaseBKeepsPinned();
    KeepsNotNamed(BaseB, BasePinned, "TimestampMS");
    ReadFromPrefix(buf, pos, BaseIsRaceOn + BaseTimestampMS + BaseA, BaseB, acc, "TimestampMS");
    BaseAKeepsPinned();
    KeepsNotNamed(BaseA, BasePinned, "TimestampMS");
    ReadFromPrefix(buf, pos, BaseIsRaceOn + BaseTimestampMS, BaseA, acc, "TimestampMS");
    BaseIsRaceOnWidth();
    FieldLast(buf, pos, BaseIsRaceOn, "TimestampMS", One(U32), acc);
  }

  /** `CurrentLap` holds what its own read at offset 292 produced. */
  lemma BaseCurrentLapAt(buf: seq<byte>, pos: nat, acc: Frame)
    requires ReadFrom(buf, pos, Base, acc).Some?
    ensures ReadKind(buf, pos + 292, One(F32)).Some?
    ensures var m := ReadFrom(buf, pos, Base, acc).value;
      "CurrentLap" in m && m["CurrentLap"] == ReadKind(buf, pos + 292, One(F32)).value
  {
    BaseNKeepsPinned();
    KeepsNotNamed(BaseN, BasePinned, "CurrentLap");
    ReadFromPrefix(buf, pos, BaseIsRaceOn + BaseTimestampMS + BaseA + BaseB + BaseC + BaseD + BaseE + BaseF + BaseG + BaseH + BaseI + BaseJ + BaseK + BaseL + BaseCurrentLap + BaseCurrentRaceTime + BaseLapNumber + BaseM + BaseGear + BaseSteer, BaseN, acc, "CurrentLap");
    assert NotNamed(BaseSteer, "CurrentLap");
    ReadFromPrefix(buf, pos, BaseIsRaceOn + BaseTimestampMS + BaseA + BaseB + BaseC + BaseD + BaseE + BaseF + BaseG + BaseH + BaseI + BaseJ + BaseK + BaseL + BaseCurrentLap + BaseCurrentRaceTime + BaseLapNumber + BaseM + BaseGear, BaseSteer, acc, "CurrentLap");
    assert NotNamed(BaseGear, "CurrentLap");
    ReadFromPrefix(buf, pos, BaseIsRaceOn + BaseTimestampMS + BaseA + BaseB + BaseC + BaseD + BaseE + BaseF + BaseG + BaseH + BaseI + BaseJ + BaseK + BaseL + BaseCurrentLap + BaseCurrentRaceTime + BaseLapNumber + BaseM, BaseGear, acc, "CurrentLap");
    BaseMKeepsPinned();
    KeepsNotNamed(BaseM, BasePinned, "CurrentLap");
    ReadFromPrefix(buf, pos, BaseIsRaceOn + BaseTimestampMS + BaseA + BaseB + BaseC + BaseD + BaseE + BaseF + BaseG + BaseH + BaseI + BaseJ + BaseK + BaseL + BaseCurrentLap + BaseCurrentRaceTime + BaseLapNumber, BaseM, acc, "CurrentLap");
    assert NotNamed(BaseLapNumber, "CurrentLap");
    ReadFromPrefix(buf, pos, BaseIsRaceOn + BaseTimestampMS + BaseA + BaseB + BaseC + BaseD + BaseE + BaseF + BaseG + BaseH + BaseI + BaseJ + BaseK + BaseL + BaseCurrentLap + BaseCurrentRaceTime, BaseLapNumber, acc, "CurrentLap");
    assert NotNamed(BaseCurrentRaceTime, "CurrentLap");
    ReadFromPrefix(buf, pos, BaseIsRaceOn + BaseTimestampMS + BaseA + BaseB + BaseC + BaseD + BaseE + BaseF + BaseG + BaseH + BaseI + BaseJ + BaseK + BaseL + BaseCurrentLap, BaseCurrentRaceTime, acc, "CurrentLap");
    BaseIsRaceOnWidth();
    BaseTimestampMSWidth();
    BaseAWidth();
    BaseBWidth();
    BaseCWidth();
    BaseDWidth();
    BaseEWidth();
    BaseFWidth();
    BaseGWidth();
    BaseHWidth();
    BaseIWidth();
    BaseJWidth();
    BaseKWidth();
    BaseLWidth();
    WidthAppend(BaseIsRaceOn, BaseTimestampMS);
    WidthAppend(BaseIsRaceOn + BaseTimestampMS, BaseA);
    WidthAppend(BaseIsRaceOn + BaseTimestampMS + BaseA, BaseB);
    WidthAppend(BaseIsRaceOn + BaseTimestampMS + BaseA + BaseB, BaseC);
    WidthAppend(BaseIsRaceOn + BaseTimestampMS + BaseA + BaseB + BaseC, BaseD);
    WidthAppend(BaseIsRaceOn + BaseTimestampMS + BaseA + BaseB + BaseC + BaseD, BaseE);
    WidthAppend(BaseIsRaceOn + BaseTimestampMS + BaseA + BaseB + BaseC + BaseD + BaseE, BaseF);
    WidthAppend(BaseIsRaceOn + BaseTimestampMS + BaseA + BaseB + BaseC + BaseD + BaseE + BaseF, BaseG);
    WidthAppend(BaseIsRaceOn + BaseTimestampMS + BaseA + BaseB + BaseC + BaseD + BaseE + BaseF + BaseG, BaseH);
    WidthAppend(BaseIsRaceOn + BaseTimestampMS + BaseA + BaseB + BaseC + BaseD + BaseE + BaseF + BaseG + BaseH, BaseI);
    WidthAppend(BaseIsRaceOn + BaseTimestampMS + BaseA + BaseB + BaseC + BaseD + BaseE + BaseF + BaseG + BaseH + BaseI, BaseJ);
    WidthAppend(BaseIsRaceOn + BaseTimestampMS + BaseA + BaseB + BaseC + BaseD + BaseE + BaseF + BaseG + BaseH + BaseI + BaseJ, BaseK);
    WidthAppend(BaseIsRaceOn + BaseTimestampMS + BaseA + BaseB + BaseC + BaseD + BaseE + BaseF + BaseG + BaseH + BaseI + BaseJ + BaseK, BaseL);
    FieldLast(buf, pos, BaseIsRaceOn + BaseTimestampMS + BaseA + BaseB + BaseC + BaseD + BaseE + BaseF + BaseG + BaseH + BaseI + BaseJ + BaseK + BaseL, "CurrentLap", One(F32), acc);
  }

  /** `CurrentRaceTime` holds what its own read at offset 296 produced. */
  lemma BaseCurrentRaceTimeAt(buf: seq<byte>, pos: nat, acc: Frame)
    requires ReadFrom(buf, pos, Base, acc).Some?
    ensures ReadKind(buf, pos + 296, One(F32)).Some?
    ensures var m := ReadFrom(buf, pos, Base, acc).value;
      "CurrentRaceTime" in m && m["CurrentRaceTime"] == ReadKind(buf, pos + 296, One(F32)).value
  {
    BaseNKeepsPinned();
    KeepsNotNamed(BaseN, BasePinned, "CurrentRaceTime");
    ReadFromPrefix(buf, pos, BaseIsRaceOn + BaseTimestampMS + BaseA + BaseB + BaseC + BaseD + BaseE + BaseF + BaseG + BaseH + BaseI + BaseJ + BaseK + BaseL + BaseCurrentLap + BaseCurrentRaceTime + BaseLapNumber + BaseM + BaseGear + BaseSteer, BaseN, acc, "CurrentRaceTime");
    assert NotNamed(BaseSteer, "CurrentRaceTime");
    ReadFromPrefix(buf, pos, BaseIsRaceOn + BaseTimestampMS + BaseA + BaseB + BaseC + BaseD + BaseE + BaseF + BaseG + BaseH + BaseI + BaseJ + BaseK + BaseL + BaseCurrentLap + BaseCurrentRaceTime + BaseLapNumber + BaseM + BaseGear, BaseSteer, acc, "CurrentRaceTime");
    assert NotNamed(BaseGear, "CurrentRaceTime");
    ReadFromPrefix(buf, pos, BaseIsRaceOn + BaseTimestampMS + BaseA + BaseB + BaseC + BaseD + BaseE + BaseF + BaseG + BaseH + BaseI + BaseJ + BaseK + BaseL + BaseCurrentLap + BaseCurrentRaceTime + BaseLapNumber + BaseM, BaseGear, acc, "CurrentRaceTime");
    BaseMKeepsPinned();
    KeepsNotNamed(BaseM, BasePinned, "CurrentRaceTime");
    ReadFromPrefix(buf, pos, BaseIsRaceOn + BaseTimestampMS + BaseA + BaseB + BaseC + BaseD + BaseE + BaseF + BaseG + BaseH + BaseI + BaseJ + BaseK + BaseL + BaseCurrentLap + BaseCurrentRaceTime + BaseLapNumber, BaseM, acc, "CurrentRaceTime");
    assert NotNamed(BaseLapNumber, "CurrentRaceTime");
    ReadFromPrefix(buf, pos, BaseIsRaceOn + BaseTimestampMS + BaseA + BaseB + BaseC + BaseD + BaseE + BaseF + BaseG + BaseH + BaseI + BaseJ + BaseK + BaseL + BaseCurrentLap + BaseCurrentRaceTime, BaseLapNumber, acc, "CurrentRaceTime");
    BaseIsRaceOnWidth();
    BaseTimestampMSWidth();
    BaseAWidth();
    BaseBWidth();
    BaseCWidth();
    BaseDWidth();
    BaseEWidth();
    BaseFWidth();
    BaseGWidth();
    BaseHWidth();
    BaseIWidth();
    BaseJWidth();
    BaseKWidth();
    BaseLWidth();
    BaseCurrentLapWidth();
    WidthAppend(BaseIsRaceOn, BaseTimestampMS);
    WidthAppend(BaseIsRaceOn + BaseTimestampMS, BaseA);
    WidthAppend(BaseIsRaceOn + BaseTimestampMS + BaseA, BaseB);
    WidthAppend(BaseIsRaceOn + BaseTimestampMS + BaseA + BaseB, BaseC);
    WidthAppend(BaseIsRaceOn + BaseTimestampMS + BaseA + BaseB + BaseC, BaseD);
    WidthAppend(BaseIsRaceOn + BaseTimestampMS + BaseA + BaseB + BaseC + BaseD, BaseE);
    WidthAppend(BaseIsRaceOn + BaseTimestampMS + BaseA + BaseB + BaseC + BaseD + BaseE, BaseF);
    WidthAppend(BaseIsRaceOn + BaseTimestampMS + BaseA + BaseB + BaseC + BaseD + BaseE + BaseF, BaseG);
    WidthAppend(BaseIsRaceOn + BaseTimestampMS + BaseA + BaseB + BaseC + BaseD + BaseE + BaseF + BaseG, BaseH);
    WidthAppend(BaseIsRaceOn + BaseTimestampMS + BaseA + BaseB + BaseC + BaseD + BaseE + BaseF + BaseG + BaseH, BaseI);
    WidthAppend(BaseIsRaceOn + BaseTimestampMS + BaseA + BaseB + BaseC + BaseD + BaseE + BaseF + BaseG + BaseH + BaseI, BaseJ);
    WidthAppend(BaseIsRaceOn + BaseTimestampMS + BaseA + BaseB + BaseC + BaseD + BaseE + BaseF + BaseG + BaseH + BaseI + BaseJ, BaseK);
    WidthAppend(BaseIsRaceOn + BaseTimestampMS + BaseA + BaseB + BaseC + BaseD + BaseE + BaseF + BaseG + BaseH + BaseI + BaseJ + BaseK, BaseL);
    WidthAppend(BaseIsRaceOn + BaseTimestampMS + BaseA + BaseB + BaseC + BaseD + BaseE + BaseF + BaseG + BaseH + BaseI + BaseJ + BaseK + BaseL, BaseCurrentLap);
    FieldLast(buf, pos, BaseIsRaceOn + BaseTimestampMS + BaseA + BaseB + BaseC + BaseD + BaseE + BaseF + BaseG + BaseH + BaseI + BaseJ + BaseK + BaseL + BaseCurrentLap, "CurrentRaceTime", One(F32), acc);
  }

  /** `LapNumber` holds what its own read at offset 300 produced. */
  lemma BaseLapNumberAt(buf: seq<byte>, pos: nat, acc: Frame)
    requires ReadFrom(buf, pos, Base, acc).Some?
    ensures ReadKind(buf, pos + 300, One(U16)).Some?
    ensures var m := ReadFrom(buf, pos, Base, acc).value;
      "LapNumber" in m && m["LapNumber"] == ReadKind(buf, pos + 300, One(U16)).value
  {
    BaseNKeepsPinned();
    KeepsNotNamed(BaseN, BasePinned, "LapNumber");
    ReadFromPrefix(buf, pos, BaseIsRaceOn + BaseTimestampMS + BaseA + BaseB + BaseC + BaseD + BaseE + BaseF + BaseG + BaseH + BaseI + BaseJ + BaseK + BaseL + BaseCurrentLap + BaseCurrentRaceTime + BaseLapNumber + BaseM + BaseGear + BaseSteer, BaseN, acc, "LapNumber");
    assert NotNamed(BaseSteer, "LapNumber");
    ReadFromPrefix(buf, pos, BaseIsRaceOn + BaseTimestampMS + BaseA + BaseB + BaseC + BaseD + BaseE + BaseF + BaseG + BaseH + BaseI + BaseJ + BaseK + BaseL + BaseCurrentLap + BaseCurrentRaceTime + BaseLapNumber + BaseM + BaseGear, BaseSteer, acc, "LapNumber");
    assert NotNamed(BaseGear, "LapNumber");
    ReadFromPrefix(buf, pos, BaseIsRaceOn + BaseTimestampMS + BaseA + BaseB + BaseC + BaseD + BaseE + BaseF + BaseG + BaseH + BaseI + BaseJ + BaseK + BaseL + BaseCurrentLap + BaseCurrentRaceTime + BaseLapNumber + BaseM, BaseGear, acc, "LapNumber");
    BaseMKeepsPinned();
    KeepsNotNamed(BaseM, BasePinned, "LapNumber");
    ReadFromPrefix(buf, pos, BaseIsRaceOn + BaseTimestampMS + BaseA + BaseB + BaseC + BaseD + BaseE + BaseF + BaseG + BaseH + BaseI + BaseJ + BaseK + BaseL + BaseCurrentLap + BaseCurrentRaceTime + BaseLapNumber, BaseM, acc, "LapNumber");
    BaseIsRaceOnWidth();
    BaseTimestampMSWidth();
    BaseAWidth();
    BaseBWidth();
    BaseCWidth();
    BaseDWidth();
    BaseEWidth();
    BaseFWidth();
    BaseGWidth();
    BaseHWidth();
    BaseIWidth();
    BaseJWidth();
    BaseKWidth();
    BaseLWidth();
    BaseCurrentLapWidth();
    BaseCurrentRaceTimeWidth();
    WidthAppend(BaseIsRaceOn, BaseTimestampMS);
    WidthAppend(BaseIsRaceOn + BaseTimestampMS, BaseA);
    WidthAppend(BaseIsRaceOn + BaseTimestampMS + BaseA, BaseB);
    WidthAppend(BaseIsRaceOn + BaseTimestampMS + BaseA + BaseB, BaseC);
    WidthAppend(BaseIsRaceOn + BaseTimestampMS + BaseA + BaseB + BaseC, BaseD);
    WidthAppend(BaseIsRaceOn + BaseTimestampMS + BaseA + BaseB + BaseC + BaseD, BaseE);
    WidthAppend(BaseIsRaceOn + BaseTimestampMS + BaseA + BaseB + BaseC + BaseD + BaseE, BaseF);
    WidthAppend(BaseIsRaceOn + BaseTimestampMS + BaseA + BaseB + BaseC + BaseD + BaseE + BaseF, BaseG);
    WidthAppend(BaseIsRaceOn + BaseTimestampMS + BaseA + BaseB + BaseC + BaseD + BaseE + BaseF + BaseG, BaseH);
    WidthAppend(BaseIsRaceOn + BaseTimestampMS + BaseA + BaseB + BaseC + BaseD + BaseE + BaseF + BaseG + BaseH, BaseI);
    WidthAppend(BaseIsRaceOn + BaseTimestampMS + BaseA + BaseB + BaseC + BaseD + BaseE + BaseF + BaseG + BaseH + BaseI, BaseJ);
    WidthAppend(BaseIsRaceOn + BaseTimestampMS + BaseA + BaseB + BaseC + BaseD + BaseE + BaseF + BaseG + BaseH + BaseI + BaseJ, BaseK);
    WidthAppend(BaseIsRaceOn + BaseTimestampMS + BaseA + BaseB + BaseC + BaseD + BaseE + BaseF + BaseG + BaseH + BaseI + BaseJ + BaseK, BaseL);
    WidthAppend(BaseIsRaceOn + BaseTimestampMS + BaseA + BaseB + BaseC + BaseD + BaseE + BaseF + BaseG + BaseH + BaseI + BaseJ + BaseK + BaseL, BaseCurrentLap);
    WidthAppend(BaseIsRaceOn + BaseTimestampMS + BaseA + BaseB + BaseC + BaseD + BaseE + BaseF + BaseG + BaseH + BaseI + BaseJ + BaseK + BaseL + BaseCurrentLap, BaseCurrentRaceTime);
    FieldLast(buf, pos, BaseIsRaceOn + BaseTimestampMS + BaseA + BaseB + BaseC + BaseD + BaseE + BaseF + BaseG + BaseH + BaseI + BaseJ + BaseK + BaseL + BaseCurrentLap + BaseCurrentRaceTime, "LapNumber", One(U16), acc);
  }

  /** `Gear` holds what its own read at offset 307 produced. */
  lemma BaseGearAt(buf: seq<byte>, pos: nat, acc: Frame)
    requires ReadFrom(buf, pos, Base, acc).Some?
    ensures ReadKind(buf, pos + 307, One(U8)).Some?
    ensures var m := ReadFrom(buf, pos, Base, acc).value;
      "Gear" in m && m["Gear"] == ReadKind(buf, pos + 307, One(U8)).value
  {
    BaseNKeepsPinned();
    KeepsNotNamed(BaseN, BasePinned, "Gear");
    ReadFromPrefix(buf, pos, BaseIsRaceOn + BaseTimestampMS + BaseA + BaseB + BaseC + BaseD + BaseE + BaseF + BaseG + BaseH + BaseI + BaseJ + BaseK + BaseL + BaseCurrentLap + BaseCurrentRaceTime + BaseLapNumber + BaseM + BaseGear + BaseSteer, BaseN, acc, "Gear");
    assert NotNamed(BaseSteer, "Gear");
    ReadFromPrefix(buf, pos, BaseIsRaceOn + BaseTimestampMS + BaseA + BaseB + BaseC + BaseD + BaseE + BaseF + BaseG + BaseH + BaseI + BaseJ + BaseK + BaseL + BaseCurrentLap + BaseCurrentRaceTime + BaseLapNumber + BaseM + BaseGear, BaseSteer, acc, "Gear");
    BaseIsRaceOnWidth();
    BaseTimestampMSWidth();
    BaseAWidth();
    BaseBWidth();
    BaseCWidth();
    BaseDWidth();
    BaseEWidth();
    BaseFWidth();
    BaseGWidth();
    BaseHWidth();
    BaseIWidth();
    BaseJWidth();
    BaseKWidth();
    BaseLWidth();
    BaseCurrentLapWidth();
    BaseCurrentRaceTimeWidth();
    BaseLapNumberWidth();
    BaseMWidth();
    WidthAppend(BaseIsRaceOn, BaseTimestampMS);
    WidthAppend(BaseIsRaceOn + BaseTimestampMS, BaseA);
    WidthAppend(BaseIsRaceOn + BaseTimestampMS + BaseA, BaseB);
    WidthAppend(BaseIsRaceOn + BaseTimestampMS + BaseA + BaseB, BaseC);
    WidthAppend(BaseIsRaceOn + BaseTimestampMS + BaseA + BaseB + BaseC, BaseD);
    WidthAppend(BaseIsRaceOn + BaseTimestampMS + BaseA + BaseB + BaseC + BaseD, BaseE);
    WidthAppend(BaseIsRaceOn + BaseTimestampMS + BaseA + BaseB + BaseC + BaseD + BaseE, BaseF);
    WidthAppend(BaseIsRaceOn + BaseTimestampMS + BaseA + BaseB + BaseC + BaseD + BaseE + BaseF, BaseG);
    WidthAppend(BaseIsRaceOn + BaseTimestampMS + BaseA + BaseB + BaseC + BaseD + BaseE + BaseF + BaseG, BaseH);
    WidthAppend(BaseIsRaceOn + BaseTimestampMS + BaseA + BaseB + BaseC + BaseD + BaseE + BaseF + BaseG + BaseH, BaseI);
    WidthAppend(BaseIsRaceOn + BaseTimestampMS + BaseA + BaseB + BaseC + BaseD + BaseE + BaseF + BaseG + BaseH + BaseI, BaseJ);
    WidthAppend(BaseIsRaceOn + BaseTimestampMS + BaseA + BaseB + BaseC + BaseD + BaseE + BaseF + BaseG + BaseH + BaseI + BaseJ, BaseK);
    WidthAppend(BaseIsRaceOn + BaseTimestampMS + BaseA + BaseB + BaseC + BaseD + BaseE + BaseF + BaseG + BaseH + BaseI + BaseJ + BaseK, BaseL);
    WidthAppend(BaseIsRaceOn + BaseTimestampMS + BaseA + BaseB + BaseC + BaseD + BaseE + BaseF + BaseG + BaseH + BaseI + BaseJ + BaseK + BaseL, BaseCurrentLap);
    WidthAppend(BaseIsRaceOn + BaseTimestampMS + BaseA + BaseB + BaseC + BaseD + BaseE + BaseF + BaseG + BaseH + BaseI + BaseJ + BaseK + BaseL + BaseCurrentLap, BaseCurrentRaceTime);
    WidthAppend(BaseIsRaceOn + BaseTimestampMS + BaseA + BaseB + BaseC + BaseD + BaseE + BaseF + BaseG + BaseH + BaseI + BaseJ + BaseK + BaseL + BaseCurrentLap + BaseCurrentRaceTime, BaseLapNumber);
    WidthAppend(BaseIsRaceOn + BaseTimestampMS + BaseA + BaseB + BaseC + BaseD + BaseE + BaseF + BaseG + BaseH + BaseI + BaseJ + BaseK + BaseL + BaseCurrentLap + BaseCurrentRaceTime + BaseLapNumber, BaseM);
    FieldLast(buf, pos, BaseIsRaceOn + BaseTimestampMS + BaseA + BaseB + BaseC + BaseD + BaseE + BaseF + BaseG + BaseH + BaseI + BaseJ + BaseK + BaseL + BaseCurrentLap + BaseCurrentRaceTime + BaseLapNumber + BaseM, "Gear", One(U8), acc);
  }

  /** `Steer` holds what its own read at offset 308 produced. */
  lemma BaseSteerAt(buf: seq<byte>, pos: nat, acc: Frame)
    requires ReadFrom(buf, pos, Base, acc).Some?
    ensures ReadKind(buf, pos + 308, One(I8)).Some?
    ensures var m := ReadFrom(buf, pos, Base, acc).value;
      "Steer" in m && m["Steer"] == ReadKind(buf, pos + 308, One(I8)).value
  {
    BaseNKeepsPinned();
    KeepsNotNamed(BaseN, BasePinned, "Steer");
    ReadFromPrefix(buf, pos, BaseIsRaceOn + BaseTimestampMS + BaseA + BaseB + BaseC + BaseD + BaseE + BaseF + BaseG + BaseH + BaseI + BaseJ + BaseK + BaseL + BaseCurrentLap + BaseCurrentRaceTime + BaseLapNumber + BaseM + BaseGear + BaseSteer, BaseN, acc, "Steer");
    BaseIsRaceOnWidth();
    BaseTimestampMSWidth();
    BaseAWidth();
    BaseBWidth();
    BaseCWidth();
    BaseDWidth();
    BaseEWidth();
    BaseFWidth();
    BaseGWidth();
    BaseHWidth();
    BaseIWidth();
    BaseJWidth();
    BaseKWidth();
    BaseLWidth();
    BaseCurrentLapWidth();
    BaseCurrentRaceTimeWidth();
    BaseLapNumberWidth();
    BaseMWidth();
    BaseGearWidth();
    WidthAppend(BaseIsRaceOn, BaseTimestampMS);
    WidthAppend(BaseIsRaceOn + BaseTimestampMS, BaseA);
    WidthAppend(BaseIsRaceOn + BaseTimestampMS + BaseA, BaseB);
    WidthAppend(BaseIsRaceOn + BaseTimestampMS + BaseA + BaseB, BaseC);
    WidthAppend(BaseIsRaceOn + BaseTimestampMS + BaseA + BaseB + BaseC, BaseD);
    WidthAppend(BaseIsRaceOn + BaseTimestampMS + BaseA + BaseB + BaseC + BaseD, BaseE);
    WidthAppend(BaseIsRaceOn + BaseTimestampMS + BaseA + BaseB + BaseC + BaseD + BaseE, BaseF);
    WidthAppend(BaseIsRaceOn + BaseTimestampMS + BaseA + BaseB + BaseC + BaseD + BaseE + BaseF, BaseG);
    WidthAppend(BaseIsRaceOn + BaseTimestampMS + BaseA + BaseB + BaseC + BaseD + BaseE + BaseF + BaseG, BaseH);
    WidthAppend(BaseIsRaceOn + BaseTimestampMS + BaseA + BaseB + BaseC + BaseD + BaseE + BaseF + BaseG + BaseH, BaseI);
    WidthAppend(BaseIsRaceOn + BaseTimestampMS + BaseA + BaseB + BaseC + BaseD + BaseE + BaseF + BaseG + BaseH + BaseI, BaseJ);
    WidthAppend(BaseIsRaceOn + BaseTimestampMS + BaseA + BaseB + BaseC + BaseD + BaseE + BaseF + BaseG + BaseH + BaseI + BaseJ, BaseK);
    WidthAppend(BaseIsRaceOn + BaseTimestampMS + BaseA + BaseB + BaseC + BaseD + BaseE + BaseF + BaseG + BaseH + BaseI + BaseJ + BaseK, BaseL);
    WidthAppend(BaseIsRaceOn + BaseTimestampMS + BaseA + BaseB + BaseC + BaseD + BaseE + BaseF + BaseG + BaseH + BaseI + BaseJ + BaseK + BaseL, BaseCurrentLap);
    WidthAppend(BaseIsRaceOn + BaseTimestampMS + BaseA + BaseB + BaseC + BaseD + BaseE + BaseF + BaseG + BaseH + BaseI + BaseJ + BaseK + BaseL + BaseCurrentLap, BaseCurrentRaceTime);
    WidthAppend(BaseIsRaceOn + BaseTimestampMS + BaseA + BaseB + BaseC + BaseD + BaseE + BaseF + BaseG + BaseH + BaseI + BaseJ + BaseK + BaseL + BaseCurrentLap + BaseCurrentRaceTime, BaseLapNumber);
    WidthAppend(BaseIsRaceOn + BaseTimestampMS + BaseA + BaseB + BaseC + BaseD + BaseE + BaseF + BaseG + BaseH + BaseI + BaseJ + BaseK + BaseL + BaseCurrentLap + BaseCurrentRaceTime + BaseLapNumber, BaseM);
    WidthAppend(BaseIsRaceOn + BaseTimestampMS + BaseA + BaseB + BaseC + BaseD + BaseE + BaseF + BaseG + BaseH + BaseI + BaseJ + BaseK + BaseL + BaseCurrentLap + BaseCurrentRaceTime + BaseLapNumber + BaseM, BaseGear);
    FieldLast(buf, pos, BaseIsRaceOn + BaseTimestampMS + BaseA + BaseB + BaseC + BaseD + BaseE + BaseF + BaseG + BaseH + BaseI + BaseJ + BaseK + BaseL + BaseCurrentLap + BaseCurrentRaceTime + BaseLapNumber + BaseM + BaseGear, "Steer", One(I8), acc);
  }

  /** The Forza Motorsport extension, read when the buffer holds 331 bytes: src/decoders/forza-motorsport.ts:303-316 */
  const ExtensionPinned: set<string> := {"TrackOrdinal"}

  const ExtensionA: Layout := [
    Field("TireWearFrontLeft", One(F32)),
    Field("TireWearFrontRight", One(F32)),
    Field("TireWearRearLeft", One(F32)),
    Field("TireWearRearRight", One(F32))
  ]

  const ExtensionTrackOrdinal: Layout := [
    Field("TrackOrdinal", One(I32))
  ]

  lemma ExtensionAWidth()
    ensures Width(ExtensionA) == 16
  {
  }

  lemma ExtensionAKeepsFrameKeys()
    ensures Keeps(ExtensionA, FrameKeys)
  {
  }

  lemma ExtensionAKeepsPinned()
    ensures Keeps(ExtensionA, ExtensionPinned)
  {
  }

  lemma ExtensionTrackOrdinalWidth()
    ensures Width(ExtensionTrackOrdinal) == 4
  {
  }

  lemma ExtensionTrackOrdinalKeepsFrameKeys()
    ensures Keeps(ExtensionTrackOrdinal, FrameKeys)
  {
  }

  const Extension: Layout := ExtensionA + ExtensionTrackOrdinal

  lemma ExtensionShape()
    ensures Width(Extension) == 20 && EndsStrict(Extension) && Keeps(Extension, FrameKeys)
  {
    ExtensionAWidth();
    ExtensionAKeepsFrameKeys();
    ExtensionTrackOrdinalWidth();
    ExtensionTrackOrdinalKeepsFrameKeys();
    WidthAppend(ExtensionA, ExtensionTrackOrdinal);
    KeepsAppend(ExtensionA, ExtensionTrackOrdinal, FrameKeys);
    assert EndsStrict(ExtensionTrackOrdinal);
    EndsStrictAppend(ExtensionA, ExtensionTrackOrdinal);
  }

  /** `TrackOrdinal` holds what its own read at offset 16 produced. */
  lemma ExtensionTrackOrdinalAt(buf: seq<byte>, pos: nat, acc: Frame)
    requires ReadFrom(buf, pos, Extension, acc).Some?
    ensures ReadKind(buf, pos + 16, One(I32)).Some?
    ensures var m := ReadFrom(buf, pos, Extension, acc).value;
      "TrackOrdinal" in m && m["TrackOrdinal"] == ReadKind(buf, pos + 16, One(I32)).value
  {
    ExtensionAWidth();
    FieldLast(buf, pos, ExtensionA, "TrackOrdinal", One(I32), acc);
  }
}
