/**
 * The page layouts of the Assetto Corsa Competizione decoder, in wire order:
 * each list is the sequence of reads its `decode*` function performs with its
 * moving offset, starting right after the packet-type byte. Long layouts are
 * split into groups; each `...Shape` lemma states the width of the walk, that
 * it ends in a read that throws past the end, and that it writes neither
 * `packet_type` nor `t`. Some fields of the graphics and static pages stand
 * alone in a group, and an `...At` lemma states the offset they are read at.
 */
module AccLayouts {
  import opened Wire
  import opened Frames
  import opened Layout

  /** The keys a page frame is given before its fields are read. */
  const FrameKeys: set<string> := {"packet_type", "t"}

  /** Physics page after the type byte: src/decoders/assetto-corsa.ts:525-879 */
  const PhysicsG1: Layout := [
    Field("packetId", One(I32)),
    Field("gas", One(F32)),
    Field("brake", One(F32)),
    Field("fuel", One(F32)),
    Field("gear", One(I32)),
    Field("rpms", One(I32))
  ]

  const PhysicsG2: Layout := [
    Field("steerAngle", One(F32)),
    Field("speedKmh", One(F32)),
    Field("velocityX", One(F32)),
    Field("velocityY", One(F32)),
    Field("velocityZ", One(F32)),
    Field("accGX", One(F32))
  ]

  const PhysicsG3: Layout := [
    Field("accGY", One(F32)),
    Field("accGZ", One(F32)),
    Field("wheelSlipFL", One(F32)),
    Field("wheelSlipFR", One(F32)),
    Field("wheelSlipRL", One(F32)),
    Field("wheelSlipRR", One(F32))
  ]

  const PhysicsG4: Layout := [
    Field("wheelLoadFL", One(F32)),
    Field("wheelLoadFR", One(F32)),
    Field("wheelLoadRL", One(F32)),
    Field("wheelLoadRR", One(F32)),
    Field("wheelsPressureFL", One(F32)),
    Field("wheelsPressureFR", One(F32))
  ]

  const PhysicsG5: Layout := [
    Field("wheelsPressureRL", One(F32)),
    Field("wheelsPressureRR", One(F32)),
    Field("wheelAngularSpeedFL", One(F32)),
    Field("wheelAngularSpeedFR", One(F32)),
    Field("wheelAngularSpeedRL", One(F32)),
    Field("wheelAngularSpeedRR", One(F32))
  ]

  const PhysicsG6: Layout := [
    Field("tyreWearFL", One(F32)),
    Field("tyreWearFR", One(F32)),
    Field("tyreWearRL", One(F32)),
    Field("tyreWearRR", One(F32)),
    Field("tyreDirtyLevelFL", One(F32)),
    Field("tyreDirtyLevelFR", One(F32))
  ]

  const PhysicsG7: Layout := [
    Field("tyreDirtyLevelRL", One(F32)),
    Field("tyreDirtyLevelRR", One(F32)),
    Field("tyreCoreTemperatureFL", One(F32)),
    Field("tyreCoreTemperatureFR", One(F32)),
    Field("tyreCoreTemperatureRL", One(F32)),
    Field("tyreCoreTemperatureRR", One(F32))
  ]

  const PhysicsG8: Layout := [
    Field("camberRADFL", One(F32)),
    Field("camberRADFR", One(F32)),
    Field("camberRADRL", One(F32)),
    Field("camberRADRR", One(F32)),
    Field("suspensionTravelFL", One(F32)),
    Field("suspensionTravelFR", One(F32))
  ]

  const PhysicsG9: Layout := [
    Field("suspensionTravelRL", One(F32)),
    Field("suspensionTravelRR", One(F32)),
    Field("drs", One(F32)),
    Field("tc", One(F32)),
    Field("heading", One(F32)),
    Field("pitch", One(F32))
  ]

  const PhysicsG10: Layout := [
    Field("roll", One(F32)),
    Field("cgHeight", One(F32)),
    Field("carDamageFront", One(F32)),
    Field("carDamageRear", One(F32)),
    Field("carDamageLeft", One(F32)),
    Field("carDamageRight", One(F32))
  ]

  const PhysicsG11: Layout := [
    Field("carDamageCenter", One(F32)),
    Field("numberOfTyresOut", One(I32)),
    Field("pitLimiterOn", One(I32)),
    Field("abs", One(F32)),
    Field("kersCharge", One(F32)),
    Field("kersInput", One(F32))
  ]

  const PhysicsG12: Layout := [
    Field("autoShifterOn", One(I32)),
    Field("rideHeightFront", One(F32)),
    Field("rideHeightRear", One(F32)),
    Field("turboBoost", One(F32)),
    Field("ballast", One(F32)),
    Field("airDensity", One(F32))
  ]

  const PhysicsG13: Layout := [
    Field("airTemp", One(F32)),
    Field("roadTemp", One(F32)),
    Field("localAngularVelX", One(F32)),
    Field("localAngularVelY", One(F32)),
    Field("localAngularVelZ", One(F32)),
    Field("finalFF", One(F32))
  ]

  const PhysicsG14: Layout := [
    Field("performanceMeter", One(F32)),
    Field("engineBrake", One(I32)),
    Field("ersRecoveryLevel", One(I32)),
    Field("ersPowerLevel", One(I32)),
    Field("ersHeatCharging", One(I32)),
    Field("ersIsCharging", One(I32))
  ]

  const PhysicsG15: Layout := [
    Field("kersCurrentKJ", One(F32)),
    Field("drsAvailable", One(I32)),
    Field("drsEnabled", One(I32)),
    Field("brakeTempFL", One(F32)),
    Field("brakeTempFR", One(F32)),
    Field("brakeTempRL", One(F32))
  ]

  const PhysicsG16: Layout := [
    Field("brakeTempRR", One(F32)),
    Field("clutch", One(F32)),
    Field("tyreTempIFL", One(F32)),
    Field("tyreTempIFR", One(F32)),
    Field("tyreTempIRL", One(F32)),
    Field("tyreTempIRR", One(F32))
  ]

  const PhysicsG17: Layout := [
    Field("tyreTempMFL", One(F32)),
    Field("tyreTempMFR", One(F32)),
    Field("tyreTempMRL", One(F32)),
    Field("tyreTempMRR", One(F32)),
    Field("tyreTempOFL", One(F32)),
    Field("tyreTempOFR", One(F32))
  ]

  const PhysicsG18: Layout := [
    Field("tyreTempORL", One(F32)),
    Field("tyreTempORR", One(F32)),
    Field("isAIControlled", One(I32)),
    Field("tyreContactPointFLX", One(F32)),
    Field("tyreContactPointFLY", One(F32)),
    Field("tyreContactPointFLZ", One(F32))
  ]

  const PhysicsG19: Layout := [
    Field("tyreContactPointFRX", One(F32)),
    Field("tyreContactPointFRY", One(F32)),
    Field("tyreContactPointFRZ", One(F32)),
    Field("tyreContactPointRLX", One(F32)),
    Field("tyreContactPointRLY", One(F32)),
    Field("tyreContactPointRLZ", One(F32))
  ]

  const PhysicsG20: Layout := [
    Field("tyreContactPointRRX", One(F32)),
    Field("tyreContactPointRRY", One(F32)),
    Field("tyreContactPointRRZ", One(F32)),
    Field("tyreContactNormalFLX", One(F32)),
    Field("tyreContactNormalFLY", One(F32)),
    Field("tyreContactNormalFLZ", One(F32))
  ]

  const PhysicsG21: Layout := [
    Field("tyreContactNormalFRX", One(F32)),
    Field("tyreContactNormalFRY", One(F32)),
    Field("tyreContactNormalFRZ", One(F32)),
    Field("tyreContactNormalRLX", One(F32)),
    Field("tyreContactNormalRLY", One(F32)),
    Field("tyreContactNormalRLZ", One(F32))
  ]

  const PhysicsG22: Layout := [
    Field("tyreContactNormalRRX", One(F32)),
    Field("tyreContactNormalRRY", One(F32)),
    Field("tyreContactNormalRRZ", One(F32)),
    Field("tyreContactHeadingFLX", One(F32)),
    Field("tyreContactHeadingFLY", One(F32)),
    Field("tyreContactHeadingFLZ", One(F32))
  ]

  const PhysicsG23: Layout := [
    Field("tyreContactHeadingFRX", One(F32)),
    Field("tyreContactHeadingFRY", One(F32)),
    Field("tyreContactHeadingFRZ", One(F32)),
    Field("tyreContactHeadingRLX", One(F32)),
    Field("tyreContactHeadingRLY", One(F32)),
    Field("tyreContactHeadingRLZ", One(F32))
  ]

  const PhysicsG24: Layout := [
    Field("tyreContactHeadingRRX", One(F32)),
    Field("tyreContactHeadingRRY", One(F32)),
    Field("tyreContactHeadingRRZ", One(F32)),
    Field("brakeBias", One(F32)),
    Field("localVelocityX", One(F32)),
    Field("localVelocityY", One(F32))
  ]

  const PhysicsG25: Layout := [
    Field("localVelocityZ", One(F32)),
    Field("P2PActivations", One(I32)),
    Field("P2PStatus", One(I32)),
    Field("currentMaxRpm", One(I32)),
    Field("mzFL", One(F32)),
    Field("mzFR", One(F32))
  ]

  const PhysicsG26: Layout := [
    Field("mzRL", One(F32)),
    Field("mzRR", One(F32)),
    Field("fxFL", One(F32)),
    Field("fxFR", One(F32)),
    Field("fxRL", One(F32)),
    Field("fxRR", One(F32))
  ]

  const PhysicsG27: Layout := [
    Field("fyFL", One(F32)),
    Field("fyFR", One(F32)),
    Field("fyRL", One(F32)),
    Field("fyRR", One(F32)),
    Field("slipRatioFL", One(F32)),
    Field("slipRatioFR", One(F32))
  ]

  const PhysicsG28: Layout := [
    Field("slipRatioRL", One(F32)),
    Field("slipRatioRR", One(F32)),
    Field("slipAngleFL", One(F32)),
    Field("slipAngleFR", One(F32)),
    Field("slipAngleRL", One(F32)),
    Field("slipAngleRR", One(F32))
  ]

  const PhysicsG29: Layout := [
    Field("tcinAction", One(I32)),
    Field("absInAction", One(I32)),
    Field("suspensionDamageFL", One(F32)),
    Field("suspensionDamageFR", One(F32)),
    Field("suspensionDamageRL", One(F32)),
    Field("suspensionDamageRR", One(F32))
  ]

  const PhysicsG30: Layout := [
    Field("tyreTempFL", One(F32)),
    Field("tyreTempFR", One(F32)),
    Field("tyreTempRL", One(F32)),
    Field("tyreTempRR", One(F32))
  ]

  lemma PhysicsG1Width()
    ensures Width(PhysicsG1) == 24
  {
  }

  lemma PhysicsG1KeepsFrameKeys()
    ensures Keeps(PhysicsG1, FrameKeys)
  {
  }

  lemma PhysicsG2Width()
    ensures Width(PhysicsG2) == 24
  {
  }

  lemma PhysicsG2KeepsFrameKeys()
    ensures Keeps(PhysicsG2, FrameKeys)
  {
  }

  lemma PhysicsG3Width()
    ensures Width(PhysicsG3) == 24
  {
  }

  lemma PhysicsG3KeepsFrameKeys()
    ensures Keeps(PhysicsG3, FrameKeys)
  {
  }

  lemma PhysicsG4Width()
    ensures Width(PhysicsG4) == 24
  {
  }

  lemma PhysicsG4KeepsFrameKeys()
    ensures Keeps(PhysicsG4, FrameKeys)
  {
  }

  lemma PhysicsG5Width()
    ensures Width(PhysicsG5) == 24
  {
  }

  lemma PhysicsG5KeepsFrameKeys()
    ensures Keeps(PhysicsG5, FrameKeys)
  {
  }

  lemma PhysicsG6Width()
    ensures Width(PhysicsG6) == 24
  {
  }

  lemma PhysicsG6KeepsFrameKeys()
    ensures Keeps(PhysicsG6, FrameKeys)
  {
  }

  lemma PhysicsG7Width()
    ensures Width(PhysicsG7) == 24
  {
  }

  lemma PhysicsG7KeepsFrameKeys()
    ensures Keeps(PhysicsG7, FrameKeys)
  {
  }

  lemma PhysicsG8Width()
    ensures Width(PhysicsG8) == 24
  {
  }

  lemma PhysicsG8KeepsFrameKeys()
    ensures Keeps(PhysicsG8, FrameKeys)
  {
  }

  lemma PhysicsG9Width()
    ensures Width(PhysicsG9) == 24
  {
  }

  lemma PhysicsG9KeepsFrameKeys()
    ensures Keeps(PhysicsG9, FrameKeys)
  {
  }

  lemma PhysicsG10Width()
    ensures Width(PhysicsG10) == 24
  {
  }

  lemma PhysicsG10KeepsFrameKeys()
    ensures Keeps(PhysicsG10, FrameKeys)
  {
  }

  lemma PhysicsG11Width()
    ensures Width(PhysicsG11) == 24
  {
  }

  lemma PhysicsG11KeepsFrameKeys()
    ensures Keeps(PhysicsG11, FrameKeys)
  {
  }

  lemma PhysicsG12Width()
    ensures Width(PhysicsG12) == 24
  {
  }

  lemma PhysicsG12KeepsFrameKeys()
    ensures Keeps(PhysicsG12, FrameKeys)
  {
  }

  lemma PhysicsG13Width()
    ensures Width(PhysicsG13) == 24
  {
  }

  lemma PhysicsG13KeepsFrameKeys()
    ensures Keeps(PhysicsG13, FrameKeys)
  {
  }

  lemma PhysicsG14Width()
    ensures Width(PhysicsG14) == 24
  {
  }

  lemma PhysicsG14KeepsFrameKeys()
    ensures Keeps(PhysicsG14, FrameKeys)
  {
  }

  lemma PhysicsG15Width()
    ensures Width(PhysicsG15) == 24
  {
  }

  lemma PhysicsG15KeepsFrameKeys()
    ensures Keeps(PhysicsG15, FrameKeys)
  {
  }

  lemma PhysicsG16Width()
    ensures Width(PhysicsG16) == 24
  {
  }

  lemma PhysicsG16KeepsFrameKeys()
    ensures Keeps(PhysicsG16, FrameKeys)
  {
  }

  lemma PhysicsG17Width()
    ensures Width(PhysicsG17) == 24
  {
  }

  lemma PhysicsG17KeepsFrameKeys()
    ensures Keeps(PhysicsG17, FrameKeys)
  {
  }

  lemma PhysicsG18Width()
    ensures Width(PhysicsG18) == 24
  {
  }

  lemma PhysicsG18KeepsFrameKeys()
    ensures Keeps(PhysicsG18, FrameKeys)
  {
  }

  lemma PhysicsG19Width()
    ensures Width(PhysicsG19) == 24
  {
  }

  lemma PhysicsG19KeepsFrameKeys()
    ensures Keeps(PhysicsG19, FrameKeys)
  {
  }

  lemma PhysicsG20Width()
    ensures Width(PhysicsG20) == 24
  {
  }

  lemma PhysicsG20KeepsFrameKeys()
    ensures Keeps(PhysicsG20, FrameKeys)
  {
  }

  lemma PhysicsG21Width()
    ensures Width(PhysicsG21) == 24
  {
  }

  lemma PhysicsG21KeepsFrameKeys()
    ensures Keeps(PhysicsG21, FrameKeys)
  {
  }

  lemma PhysicsG22Width()
    ensures Width(PhysicsG22) == 24
  {
  }

  lemma PhysicsG22KeepsFrameKeys()
    ensures Keeps(PhysicsG22, FrameKeys)
  {
  }

  lemma PhysicsG23Width()
    ensures Width(PhysicsG23) == 24
  {
  }

  lemma PhysicsG23KeepsFrameKeys()
    ensures Keeps(PhysicsG23, FrameKeys)
  {
  }

  lemma PhysicsG24Width()
    ensures Width(PhysicsG24) == 24
  {
  }

  lemma PhysicsG24KeepsFrameKeys()
    ensures Keeps(PhysicsG24, FrameKeys)
  {
  }

  lemma PhysicsG25Width()
    ensures Width(PhysicsG25) == 24
  {
  }

  lemma PhysicsG25KeepsFrameKeys()
    ensures Keeps(PhysicsG25, FrameKeys)
  {
  }

  lemma PhysicsG26Width()
    ensures Width(PhysicsG26) == 24
  {
  }

  lemma PhysicsG26KeepsFrameKeys()
    ensures Keeps(PhysicsG26, FrameKeys)
  {
  }

  lemma PhysicsG27Width()
    ensures Width(PhysicsG27) == 24
  {
  }

  lemma PhysicsG27KeepsFrameKeys()
    ensures Keeps(PhysicsG27, FrameKeys)
  {
  }

  lemma PhysicsG28Width()
    ensures Width(PhysicsG28) == 24
  {
  }

  lemma PhysicsG28KeepsFrameKeys()
    ensures Keeps(PhysicsG28, FrameKeys)
  {
  }

  lemma PhysicsG29Width()
    ensures Width(PhysicsG29) == 24
  {
  }

  lemma PhysicsG29KeepsFrameKeys()
    ensures Keeps(PhysicsG29, FrameKeys)
  {
  }

  lemma PhysicsG30Width()
    ensures Width(PhysicsG30) == 16
  {
  }

  lemma PhysicsG30KeepsFrameKeys()
    ensures Keeps(PhysicsG30, FrameKeys)
  {
  }

  const PhysicsPart1: Layout := PhysicsG1 + PhysicsG2 + PhysicsG3 + PhysicsG4

  lemma PhysicsPart1Width()
    ensures Width(PhysicsPart1) == 96
  {
    PhysicsG1Width();
    PhysicsG2Width();
    PhysicsG3Width();
    PhysicsG4Width();
    WidthAppend(PhysicsG1, PhysicsG2);
    WidthAppend(PhysicsG1 + PhysicsG2, PhysicsG3);
    WidthAppend(PhysicsG1 + PhysicsG2 + PhysicsG3, PhysicsG4);
  }

  lemma PhysicsPart1KeepsFrameKeys()
    ensures Keeps(PhysicsPart1, FrameKeys)
  {
    PhysicsG1KeepsFrameKeys();
    PhysicsG2KeepsFrameKeys();
    PhysicsG3KeepsFrameKeys();
    PhysicsG4KeepsFrameKeys();
    KeepsAppend(PhysicsG1, PhysicsG2, FrameKeys);
    KeepsAppend(PhysicsG1 + PhysicsG2, PhysicsG3, FrameKeys);
    KeepsAppend(PhysicsG1 + PhysicsG2 + PhysicsG3, PhysicsG4, FrameKeys);
  }

  const PhysicsPart2: Layout := PhysicsG5 + PhysicsG6 + PhysicsG7 + PhysicsG8

  lemma PhysicsPart2Width()
    ensures Width(PhysicsPart2) == 96
  {
    PhysicsG5Width();
    PhysicsG6Width();
    PhysicsG7Width();
    PhysicsG8Width();
    WidthAppend(PhysicsG5, PhysicsG6);
    WidthAppend(PhysicsG5 + PhysicsG6, PhysicsG7);
    WidthAppend(PhysicsG5 + PhysicsG6 + PhysicsG7, PhysicsG8);
  }

  lemma PhysicsPart2KeepsFrameKeys()
    ensures Keeps(PhysicsPart2, FrameKeys)
  {
    PhysicsG5KeepsFrameKeys();
    PhysicsG6KeepsFrameKeys();
    PhysicsG7KeepsFrameKeys();
    PhysicsG8KeepsFrameKeys();
    KeepsAppend(PhysicsG5, PhysicsG6, FrameKeys);
    KeepsAppend(PhysicsG5 + PhysicsG6, PhysicsG7, FrameKeys);
    KeepsAppend(PhysicsG5 + PhysicsG6 + PhysicsG7, PhysicsG8, FrameKeys);
  }

  const PhysicsPart3: Layout := PhysicsG9 + PhysicsG10 + PhysicsG11 + PhysicsG12

  lemma PhysicsPart3Width()
    ensures Width(PhysicsPart3) == 96
  {
    PhysicsG9Width();
    PhysicsG10Width();
    PhysicsG11Width();
    PhysicsG12Width();
    WidthAppend(PhysicsG9, PhysicsG10);
    WidthAppend(PhysicsG9 + PhysicsG10, PhysicsG11);
    WidthAppend(PhysicsG9 + PhysicsG10 + PhysicsG11, PhysicsG12);
  }

  lemma PhysicsPart3KeepsFrameKeys()
    ensures Keeps(PhysicsPart3, FrameKeys)
  {
    PhysicsG9KeepsFrameKeys();
    PhysicsG10KeepsFrameKeys();
    PhysicsG11KeepsFrameKeys();
    PhysicsG12KeepsFrameKeys();
    KeepsAppend(PhysicsG9, PhysicsG10, FrameKeys);
    KeepsAppend(PhysicsG9 + PhysicsG10, PhysicsG11, FrameKeys);
    KeepsAppend(PhysicsG9 + PhysicsG10 + PhysicsG11, PhysicsG12, FrameKeys);
  }

  const PhysicsPart4: Layout := PhysicsG13 + PhysicsG14 + PhysicsG15 + PhysicsG16

  lemma PhysicsPart4Width()
    ensures Width(PhysicsPart4) == 96
  {
    PhysicsG13Width();
    PhysicsG14Width();
    PhysicsG15Width();
    PhysicsG16Width();
    WidthAppend(PhysicsG13, PhysicsG14);
    WidthAppend(PhysicsG13 + PhysicsG14, PhysicsG15);
    WidthAppend(PhysicsG13 + PhysicsG14 + PhysicsG15, PhysicsG16);
  }

  lemma PhysicsPart4KeepsFrameKeys()
    ensures Keeps(PhysicsPart4, FrameKeys)
  {
    PhysicsG13KeepsFrameKeys();
    PhysicsG14KeepsFrameKeys();
    PhysicsG15KeepsFrameKeys();
    PhysicsG16KeepsFrameKeys();
    KeepsAppend(PhysicsG13, PhysicsG14, FrameKeys);
    KeepsAppend(PhysicsG13 + PhysicsG14, PhysicsG15, FrameKeys);
    KeepsAppend(PhysicsG13 + PhysicsG14 + PhysicsG15, PhysicsG16, FrameKeys);
  }

  const PhysicsPart5: Layout := PhysicsG17 + PhysicsG18 + PhysicsG19 + PhysicsG20

  lemma PhysicsPart5Width()
    ensures Width(PhysicsPart5) == 96
  {
    PhysicsG17Width();
    PhysicsG18Width();
    PhysicsG19Width();
    PhysicsG20Width();
    WidthAppend(PhysicsG17, PhysicsG18);
    WidthAppend(PhysicsG17 + PhysicsG18, PhysicsG19);
    WidthAppend(PhysicsG17 + PhysicsG18 + PhysicsG19, PhysicsG20);
  }

  lemma PhysicsPart5KeepsFrameKeys()
    ensures Keeps(PhysicsPart5, FrameKeys)
  {
    PhysicsG17KeepsFrameKeys();
    PhysicsG18KeepsFrameKeys();
    PhysicsG19KeepsFrameKeys();
    PhysicsG20KeepsFrameKeys();
    KeepsAppend(PhysicsG17, PhysicsG18, FrameKeys);
    KeepsAppend(PhysicsG17 + PhysicsG18, PhysicsG19, FrameKeys);
    KeepsAppend(PhysicsG17 + PhysicsG18 + PhysicsG19, PhysicsG20, FrameKeys);
  }

  const PhysicsPart6: Layout := PhysicsG21 + PhysicsG22 + PhysicsG23 + PhysicsG24

  lemma PhysicsPart6Width()
    ensures Width(PhysicsPart6) == 96
  {
    PhysicsG21Width();
    PhysicsG22Width();
    PhysicsG23Width();
    PhysicsG24Width();
    WidthAppend(PhysicsG21, PhysicsG22);
    WidthAppend(PhysicsG21 + PhysicsG22, PhysicsG23);
    WidthAppend(PhysicsG21 + PhysicsG22 + PhysicsG23, PhysicsG24);
  }

  lemma PhysicsPart6KeepsFrameKeys()
    ensures Keeps(PhysicsPart6, FrameKeys)
  {
    PhysicsG21KeepsFrameKeys();
    PhysicsG22KeepsFrameKeys();
    PhysicsG23KeepsFrameKeys();
    PhysicsG24KeepsFrameKeys();
    KeepsAppend(PhysicsG21, PhysicsG22, FrameKeys);
    KeepsAppend(PhysicsG21 + PhysicsG22, PhysicsG23, FrameKeys);
    KeepsAppend(PhysicsG21 + PhysicsG22 + PhysicsG23, PhysicsG24, FrameKeys);
  }

  const PhysicsPart7: Layout := PhysicsG25 + PhysicsG26 + PhysicsG27 + PhysicsG28

  lemma PhysicsPart7Width()
    ensures Width(PhysicsPart7) == 96
  {
    PhysicsG25Width();
    PhysicsG26Width();
    PhysicsG27Width();
    PhysicsG28Width();
    WidthAppend(PhysicsG25, PhysicsG26);
    WidthAppend(PhysicsG25 + PhysicsG26, PhysicsG27);
    WidthAppend(PhysicsG25 + PhysicsG26 + PhysicsG27, PhysicsG28);
  }

  lemma PhysicsPart7KeepsFrameKeys()
    ensures Keeps(PhysicsPart7, FrameKeys)
  {
    PhysicsG25KeepsFrameKeys();
    PhysicsG26KeepsFrameKeys();
    PhysicsG27KeepsFrameKeys();
    PhysicsG28KeepsFrameKeys();
    KeepsAppend(PhysicsG25, PhysicsG26, FrameKeys);
    KeepsAppend(PhysicsG25 + PhysicsG26, PhysicsG27, FrameKeys);
    KeepsAppend(PhysicsG25 + PhysicsG26 + PhysicsG27, PhysicsG28, FrameKeys);
  }

  const PhysicsPart8: Layout := PhysicsG29 + PhysicsG30

  lemma PhysicsPart8Width()
    ensures Width(PhysicsPart8) == 40
  {
    PhysicsG29Width();
    PhysicsG30Width();
    WidthAppend(PhysicsG29, PhysicsG30);
  }

  lemma PhysicsPart8KeepsFrameKeys()
    ensures Keeps(PhysicsPart8, FrameKeys)
  {
    PhysicsG29KeepsFrameKeys();
    PhysicsG30KeepsFrameKeys();
    KeepsAppend(PhysicsG29, PhysicsG30, FrameKeys);
  }

  const Physics: Layout := PhysicsPart1 + PhysicsPart2 + PhysicsPart3 + PhysicsPart4 + PhysicsPart5 + PhysicsPart6 + PhysicsPart7 + PhysicsPart8

  lemma PhysicsShape()
    ensures Width(Physics) == 712 && EndsStrict(Physics) && Keeps(Physics, FrameKeys)
  {
    PhysicsPart1Width();
    PhysicsPart1KeepsFrameKeys();
    PhysicsPart2Width();
    PhysicsPart2KeepsFrameKeys();
    PhysicsPart3Width();
    PhysicsPart3KeepsFrameKeys();
    PhysicsPart4Width();
    PhysicsPart4KeepsFrameKeys();
    PhysicsPart5Width();
    PhysicsPart5KeepsFrameKeys();
    PhysicsPart6Width();
    PhysicsPart6KeepsFrameKeys();
    PhysicsPart7Width();
    PhysicsPart7KeepsFrameKeys();
    PhysicsPart8Width();
    PhysicsPart8KeepsFrameKeys();
    WidthAppend(PhysicsPart1, PhysicsPart2);
    KeepsAppend(PhysicsPart1, PhysicsPart2, FrameKeys);
    WidthAppend(PhysicsPart1 + PhysicsPart2, PhysicsPart3);
    KeepsAppend(PhysicsPart1 + PhysicsPart2, PhysicsPart3, FrameKeys);
    WidthAppend(PhysicsPart1 + PhysicsPart2 + PhysicsPart3, PhysicsPart4);
    KeepsAppend(PhysicsPart1 + PhysicsPart2 + PhysicsPart3, PhysicsPart4, FrameKeys);
    WidthAppend(PhysicsPart1 + PhysicsPart2 + PhysicsPart3 + PhysicsPart4, PhysicsPart5);
    KeepsAppend(PhysicsPart1 + PhysicsPart2 + PhysicsPart3 + PhysicsPart4, PhysicsPart5, FrameKeys);
    WidthAppend(PhysicsPart1 + PhysicsPart2 + PhysicsPart3 + PhysicsPart4 + PhysicsPart5, PhysicsPart6);
    KeepsAppend(PhysicsPart1 + PhysicsPart2 + PhysicsPart3 + PhysicsPart4 + PhysicsPart5, PhysicsPart6, FrameKeys);
    WidthAppend(PhysicsPart1 + PhysicsPart2 + PhysicsPart3 + PhysicsPart4 + PhysicsPart5 + PhysicsPart6, PhysicsPart7);
    KeepsAppend(PhysicsPart1 + PhysicsPart2 + PhysicsPart3 + PhysicsPart4 + PhysicsPart5 + PhysicsPart6, PhysicsPart7, FrameKeys);
    WidthAppend(PhysicsPart1 + PhysicsPart2 + PhysicsPart3 + PhysicsPart4 + PhysicsPart5 + PhysicsPart6 + PhysicsPart7, PhysicsPart8);
    KeepsAppend(PhysicsPart1 + PhysicsPart2 + PhysicsPart3 + PhysicsPart4 + PhysicsPart5 + PhysicsPart6 + PhysicsPart7, PhysicsPart8, FrameKeys);
    assert EndsStrict(PhysicsG30);
    EndsStrictAppend(PhysicsG29, PhysicsG30);
    EndsStrictAppend(PhysicsPart1 + PhysicsPart2 + PhysicsPart3 + PhysicsPart4 + PhysicsPart5 + PhysicsPart6 + PhysicsPart7, PhysicsPart8);
  }

  /** Graphics page after the type byte: src/decoders/assetto-corsa.ts:881-993 */
  const GraphicsPinned: set<string> := {"currentTime", "lastTime", "tyreCompound", "carCoordinates", "carIDs"}

  const GraphicsA: Layout := [
    Field("packetId", One(I32)),
    Field("status", One(I32)),
    Field("session", One(I32))
  ]

  const GraphicsCurrentTime: Layout := [
    Field("currentTime", One(Wide(15)))
  ]

  const GraphicsLastTime: Layout := [
    Field("lastTime", One(Wide(15)))
  ]

  const GraphicsB: Layout := [
    Field("bestTime", One(Wide(15))),
    Field("split", One(Wide(15))),
    Field("completedLaps", One(I32)),
    Field("position", One(I32)),
    Field("iCurrentTime", One(I32)),
    Field("iLastTime", One(I32))
  ]

  const GraphicsC: Layout := [
    Field("iBestTime", One(I32)),
    Field("sessionTimeLeft", One(F32)),
    Field("distanceTraveled", One(F32)),
    Field("isInPit", One(I32)),
    Field("currentSectorIndex", One(I32)),
    Field("lastSectorTime", One(I32))
  ]

  const GraphicsD: Layout := [
    Field("numberOfLaps", One(I32))
  ]

  const GraphicsTyreCompound: Layout := [
    Field("tyreCompound", One(Wide(33)))
  ]

  const GraphicsE: Layout := [
    Field("replayTimeMultiplier", One(F32)),
    Field("normalizedCarPosition", One(F32)),
    Field("activeCars", One(I32))
  ]

  const GraphicsCarCoordinates: Layout := [
    Field("carCoordinates", Many(180, F32))
  ]

  const GraphicsCarIDs: Layout := [
    Field("carIDs", Many(60, I32))
  ]

  const GraphicsF: Layout := [
    Field("playerCarID", One(I32)),
    Field("penaltyTime", One(F32)),
    Field("flag", One(I32)),
    Field("penalty", One(I32)),
    Field("idealLineOn", One(I32)),
    Field("isInPitLane", One(I32))
  ]

  const GraphicsG: Layout := [
    Field("surfaceGrip", One(F32)),
    Field("mandatoryPitDone", One(I32)),
    Field("windSpeed", One(F32)),
    Field("windDirection", One(F32)),
    Field("isSetupMenuVisible", One(I32)),
    Field("mainDisplayIndex", One(I32))
  ]

  const GraphicsH: Layout := [
    Field("secondaryDisplayIndex", One(I32)),
    Field("TC", One(I32)),
    Field("TCCut", One(I32)),
    Field("EngineMap", One(I32)),
    Field("ABS", One(I32)),
    Field("fuelXLap", One(I32))
  ]

  const GraphicsI: Layout := [
    Field("rainLights", One(I32)),
    Field("flashingLights", One(I32)),
    Field("lightsStage", One(I32)),
    Field("exhaustTemperature", One(F32)),
    Field("wiperLV", One(I32)),
    Field("DriverStintTotalTimeLeft", One(I32))
  ]

  const GraphicsJ: Layout := [
    Field("DriverStintTimeLeft", One(I32)),
    Field("rainTyres", One(I32))
  ]

  lemma GraphicsAWidth()
    ensures Width(GraphicsA) == 12
  {
  }

  lemma GraphicsAKeepsFrameKeys()
    ensures Keeps(GraphicsA, FrameKeys)
  {
  }

  lemma GraphicsAKeepsPinned()
    ensures Keeps(GraphicsA, GraphicsPinned)
  {
  }

  lemma GraphicsCurrentTimeWidth()
    ensures Width(GraphicsCurrentTime) == 30
  {
  }

  lemma GraphicsCurrentTimeKeepsFrameKeys()
    ensures Keeps(GraphicsCurrentTime, FrameKeys)
  {
  }

  lemma GraphicsLastTimeWidth()
    ensures Width(GraphicsLastTime) == 30
  {
  }

  lemma GraphicsLastTimeKeepsFrameKeys()
    ensures Keeps(GraphicsLastTime, FrameKeys)
  {
  }

  lemma GraphicsBWidth()
    ensures Width(GraphicsB) == 76
  {
  }

  lemma GraphicsBKeepsFrameKeys()
    ensures Keeps(GraphicsB, FrameKeys)
  {
  }

  lemma GraphicsBKeepsPinned()
    ensures Keeps(GraphicsB, GraphicsPinned)
  {
  }

  lemma GraphicsCWidth()
    ensures Width(GraphicsC) == 24
  {
  }

  lemma GraphicsCKeepsFrameKeys()
    ensures Keeps(GraphicsC, FrameKeys)
  {
  }

  lemma GraphicsCKeepsPinned()
    ensures Keeps(GraphicsC, GraphicsPinned)
  {
  }

  lemma GraphicsDWidth()
    ensures Width(GraphicsD) == 4
  {
  }

  lemma GraphicsDKeepsFrameKeys()
    ensures Keeps(GraphicsD, FrameKeys)
  {
  }

  lemma GraphicsDKeepsPinned()
    ensures Keeps(GraphicsD, GraphicsPinned)
  {
  }

  lemma GraphicsTyreCompoundWidth()
    ensures Width(GraphicsTyreCompound) == 66
  {
  }

  lemma GraphicsTyreCompoundKeepsFrameKeys()
    ensures Keeps(GraphicsTyreCompound, FrameKeys)
  {
  }

  lemma GraphicsEWidth()
    ensures Width(GraphicsE) == 12
  {
  }

  lemma GraphicsEKeepsFrameKeys()
    ensures Keeps(GraphicsE, FrameKeys)
  {
  }

  lemma GraphicsEKeepsPinned()
    ensures Keeps(GraphicsE, GraphicsPinned)
  {
  }

  lemma GraphicsCarCoordinatesWidth()
    ensures Width(GraphicsCarCoordinates) == 720
  {
  }

  lemma GraphicsCarCoordinatesKeepsFrameKeys()
    ensures Keeps(GraphicsCarCoordinates, FrameKeys)
  {
  }

  lemma GraphicsCarIDsWidth()
    ensures Width(GraphicsCarIDs) == 240
  {
  }

  lemma GraphicsCarIDsKeepsFrameKeys()
    ensures Keeps(GraphicsCarIDs, FrameKeys)
  {
  }

  lemma GraphicsFWidth()
    ensures Width(GraphicsF) == 24
  {
  }

  lemma GraphicsFKeepsFrameKeys()
    ensures Keeps(GraphicsF, FrameKeys)
  {
  }

  lemma GraphicsFKeepsPinned()
    ensures Keeps(GraphicsF, GraphicsPinned)
  {
  }

  lemma GraphicsGWidth()
    ensures Width(GraphicsG) == 24
  {
  }

  lemma GraphicsGKeepsFrameKeys()
    ensures Keeps(GraphicsG, FrameKeys)
  {
  }

  lemma GraphicsGKeepsPinned()
    ensures Keeps(GraphicsG, GraphicsPinned)
  {
  }

  lemma GraphicsHWidth()
    ensures Width(GraphicsH) == 24
  {
  }

  lemma GraphicsHKeepsFrameKeys()
    ensures Keeps(GraphicsH, FrameKeys)
  {
  }

  lemma GraphicsHKeepsPinned()
    ensures Keeps(GraphicsH, GraphicsPinned)
  {
  }

  lemma GraphicsIWidth()
    ensures Width(GraphicsI) == 24
  {
  }

  lemma GraphicsIKeepsFrameKeys()
    ensures Keeps(GraphicsI, FrameKeys)
  {
  }

  lemma GraphicsIKeepsPinned()
    ensures Keeps(GraphicsI, GraphicsPinned)
  {
  }

  lemma GraphicsJWidth()
    ensures Width(GraphicsJ) == 8
  {
  }

  lemma GraphicsJKeepsFrameKeys()
    ensures Keeps(GraphicsJ, FrameKeys)
  {
  }

  lemma GraphicsJKeepsPinned()
    ensures Keeps(GraphicsJ, GraphicsPinned)
  {
  }

  const Graphics: Layout := GraphicsA + GraphicsCurrentTime + GraphicsLastTime + GraphicsB + GraphicsC + GraphicsD + GraphicsTyreCompound + GraphicsE + GraphicsCarCoordinates + GraphicsCarIDs + GraphicsF + GraphicsG + GraphicsH + GraphicsI + GraphicsJ

  lemma GraphicsShape()
    ensures Width(Graphics) == 1318 && EndsStrict(Graphics) && Keeps(Graphics, FrameKeys)
  {
    GraphicsAWidth();
    GraphicsAKeepsFrameKeys();
    GraphicsCurrentTimeWidth();
    GraphicsCurrentTimeKeepsFrameKeys();
    GraphicsLastTimeWidth();
    GraphicsLastTimeKeepsFrameKeys();
    GraphicsBWidth();
    GraphicsBKeepsFrameKeys();
    GraphicsCWidth();
    GraphicsCKeepsFrameKeys();
    GraphicsDWidth();
    GraphicsDKeepsFrameKeys();
    GraphicsTyreCompoundWidth();
    GraphicsTyreCompoundKeepsFrameKeys();
    GraphicsEWidth();
    GraphicsEKeepsFrameKeys();
    GraphicsCarCoordinatesWidth();
    GraphicsCarCoordinatesKeepsFrameKeys();
    GraphicsCarIDsWidth();
    GraphicsCarIDsKeepsFrameKeys();
    GraphicsFWidth();
    GraphicsFKeepsFrameKeys();
    GraphicsGWidth();
    GraphicsGKeepsFrameKeys();
    GraphicsHWidth();
    GraphicsHKeepsFrameKeys();
    GraphicsIWidth();
    GraphicsIKeepsFrameKeys();
    GraphicsJWidth();
    GraphicsJKeepsFrameKeys();
    WidthAppend(GraphicsA, GraphicsCurrentTime);
    KeepsAppend(GraphicsA, GraphicsCurrentTime, FrameKeys);
    WidthAppend(GraphicsA + GraphicsCurrentTime, GraphicsLastTime);
    KeepsAppend(GraphicsA + GraphicsCurrentTime, GraphicsLastTime, FrameKeys);
    WidthAppend(GraphicsA + GraphicsCurrentTime + GraphicsLastTime, GraphicsB);
    KeepsAppend(GraphicsA + GraphicsCurrentTime + GraphicsLastTime, GraphicsB, FrameKeys);
    WidthAppend(GraphicsA + GraphicsCurrentTime + GraphicsLastTime + GraphicsB, GraphicsC);
    KeepsAppend(GraphicsA + GraphicsCurrentTime + GraphicsLastTime + GraphicsB, GraphicsC, FrameKeys);
    WidthAppend(GraphicsA + GraphicsCurrentTime + GraphicsLastTime + GraphicsB + GraphicsC, GraphicsD);
    KeepsAppend(GraphicsA + GraphicsCurrentTime + GraphicsLastTime + GraphicsB + GraphicsC, GraphicsD, FrameKeys);
    WidthAppend(GraphicsA + GraphicsCurrentTime + GraphicsLastTime + GraphicsB + GraphicsC + GraphicsD, GraphicsTyreCompound);
    KeepsAppend(GraphicsA + GraphicsCurrentTime + GraphicsLastTime + GraphicsB + GraphicsC + GraphicsD, GraphicsTyreCompound, FrameKeys);
    WidthAppend(GraphicsA + GraphicsCurrentTime + GraphicsLastTime + GraphicsB + GraphicsC + GraphicsD + GraphicsTyreCompound, GraphicsE);
    KeepsAppend(GraphicsA + GraphicsCurrentTime + GraphicsLastTime + GraphicsB + GraphicsC + GraphicsD + GraphicsTyreCompound, GraphicsE, FrameKeys);
    WidthAppend(GraphicsA + GraphicsCurrentTime + GraphicsLastTime + GraphicsB + GraphicsC + GraphicsD + GraphicsTyreCompound + GraphicsE, GraphicsCarCoordinates);
    KeepsAppend(GraphicsA + GraphicsCurrentTime + GraphicsLastTime + GraphicsB + GraphicsC + GraphicsD + GraphicsTyreCompound + GraphicsE, GraphicsCarCoordinates, FrameKeys);
    WidthAppend(GraphicsA + GraphicsCurrentTime + GraphicsLastTime + GraphicsB + GraphicsC + GraphicsD + GraphicsTyreCompound + GraphicsE + GraphicsCarCoordinates, GraphicsCarIDs);
    KeepsAppend(GraphicsA + GraphicsCurrentTime + GraphicsLastTime + GraphicsB + GraphicsC + GraphicsD + GraphicsTyreCompound + GraphicsE + GraphicsCarCoordinates, GraphicsCarIDs, FrameKeys);
    WidthAppend(GraphicsA + GraphicsCurrentTime + GraphicsLastTime + GraphicsB + GraphicsC + GraphicsD + GraphicsTyreCompound + GraphicsE + GraphicsCarCoordinates + GraphicsCarIDs, GraphicsF);
    KeepsAppend(GraphicsA + GraphicsCurrentTime + GraphicsLastTime + GraphicsB + GraphicsC + GraphicsD + GraphicsTyreCompound + GraphicsE + GraphicsCarCoordinates + GraphicsCarIDs, GraphicsF, FrameKeys);
    WidthAppend(GraphicsA + GraphicsCurrentTime + GraphicsLastTime + GraphicsB + GraphicsC + GraphicsD + GraphicsTyreCompound + GraphicsE + GraphicsCarCoordinates + GraphicsCarIDs + GraphicsF, GraphicsG);
    KeepsAppend(GraphicsA + GraphicsCurrentTime + GraphicsLastTime + GraphicsB + GraphicsC + GraphicsD + GraphicsTyreCompound + GraphicsE + GraphicsCarCoordinates + GraphicsCarIDs + GraphicsF, GraphicsG, FrameKeys);
    WidthAppend(GraphicsA + GraphicsCurrentTime + GraphicsLastTime + GraphicsB + GraphicsC + GraphicsD + GraphicsTyreCompound + GraphicsE + GraphicsCarCoordinates + GraphicsCarIDs + GraphicsF + GraphicsG, GraphicsH);
    KeepsAppend(GraphicsA + GraphicsCurrentTime + GraphicsLastTime + GraphicsB + GraphicsC + GraphicsD + GraphicsTyreCompound + GraphicsE + GraphicsCarCoordinates + GraphicsCarIDs + GraphicsF + GraphicsG, GraphicsH, FrameKeys);
    WidthAppend(GraphicsA + GraphicsCurrentTime + GraphicsLastTime + GraphicsB + GraphicsC + GraphicsD + GraphicsTyreCompound + GraphicsE + GraphicsCarCoordinates + GraphicsCarIDs + GraphicsF + GraphicsG + GraphicsH, GraphicsI);
    KeepsAppend(GraphicsA + GraphicsCurrentTime + GraphicsLastTime + GraphicsB + GraphicsC + GraphicsD + GraphicsTyreCompound + GraphicsE + GraphicsCarCoordinates + GraphicsCarIDs + GraphicsF + GraphicsG + GraphicsH, GraphicsI, FrameKeys);
    WidthAppend(GraphicsA + GraphicsCurrentTime + GraphicsLastTime + GraphicsB + GraphicsC + GraphicsD + GraphicsTyreCompound + GraphicsE + GraphicsCarCoordinates + GraphicsCarIDs + GraphicsF + GraphicsG + GraphicsH + GraphicsI, GraphicsJ);
    KeepsAppend(GraphicsA + GraphicsCurrentTime + GraphicsLastTime + GraphicsB + GraphicsC + GraphicsD + GraphicsTyreCompound + GraphicsE + GraphicsCarCoordinates + GraphicsCarIDs + GraphicsF + GraphicsG + GraphicsH + GraphicsI, GraphicsJ, FrameKeys);
    assert EndsStrict(GraphicsJ);
    EndsStrictAppend(GraphicsA + GraphicsCurrentTime + GraphicsLastTime + GraphicsB + GraphicsC + GraphicsD + GraphicsTyreCompound + GraphicsE + GraphicsCarCoordinates + GraphicsCarIDs + GraphicsF + GraphicsG + GraphicsH + GraphicsI, GraphicsJ);
  }

  /** `currentTime` holds what its own read at offset 12 produced. */
  lemma GraphicsCurrentTimeAt(buf: seq<byte>, pos: nat, acc: Frame)
    requires ReadFrom(buf, pos, Graphics, acc).Some?
    ensures ReadKind(buf, pos + 12, One(Wide(15))).Some?
    ensures var m := ReadFrom(buf, pos, Graphics, acc).value;
      "currentTime" in m && m["currentTime"] == ReadKind(buf, pos + 12, One(Wide(15))).value
  {
    GraphicsJKeepsPinned();
    KeepsNotNamed(GraphicsJ, GraphicsPinned, "currentTime");
    ReadFromPrefix(buf, pos, GraphicsA + GraphicsCurrentTime + GraphicsLastTime + GraphicsB + GraphicsC + GraphicsD + GraphicsTyreCompound + GraphicsE + GraphicsCarCoordinates + GraphicsCarIDs + GraphicsF + GraphicsG + GraphicsH + GraphicsI, GraphicsJ, acc, "currentTime");
    GraphicsIKeepsPinned();
    KeepsNotNamed(GraphicsI, GraphicsPinned, "currentTime");
    ReadFromPrefix(buf, pos, GraphicsA + GraphicsCurrentTime + GraphicsLastTime + GraphicsB + GraphicsC + GraphicsD + GraphicsTyreCompound + GraphicsE + GraphicsCarCoordinates + GraphicsCarIDs + GraphicsF + GraphicsG + GraphicsH, GraphicsI, acc, "currentTime");
    GraphicsHKeepsPinned();
    KeepsNotNamed(GraphicsH, GraphicsPinned, "currentTime");
    ReadFromPrefix(buf, pos, GraphicsA + GraphicsCurrentTime + GraphicsLastTime + GraphicsB + GraphicsC + GraphicsD + GraphicsTyreCompound + GraphicsE + GraphicsCarCoordinates + GraphicsCarIDs + GraphicsF + GraphicsG, GraphicsH, acc, "currentTime");
    GraphicsGKeepsPinned();
    KeepsNotNamed(GraphicsG, GraphicsPinned, "currentTime");
    ReadFromPrefix(buf, pos, GraphicsA + GraphicsCurrentTime + GraphicsLastTime + GraphicsB + GraphicsC + GraphicsD + GraphicsTyreCompound + GraphicsE + GraphicsCarCoordinates + GraphicsCarIDs + GraphicsF, GraphicsG, acc, "currentTime");
    GraphicsFKeepsPinned();
    KeepsNotNamed(GraphicsF, GraphicsPinned, "currentTime");
    ReadFromPrefix(buf, pos, GraphicsA + GraphicsCurrentTime + GraphicsLastTime + GraphicsB + GraphicsC + GraphicsD + GraphicsTyreCompound + GraphicsE + GraphicsCarCoordinates + GraphicsCarIDs, GraphicsF, acc, "currentTime");
    assert NotNamed(GraphicsCarIDs, "currentTime");
    ReadFromPrefix(buf, pos, GraphicsA + GraphicsCurrentTime + GraphicsLastTime + GraphicsB + GraphicsC + GraphicsD + GraphicsTyreCompound + GraphicsE + GraphicsCarCoordinates, GraphicsCarIDs, acc, "currentTime");
    assert NotNamed(GraphicsCarCoordinates, "currentTime");
    ReadFromPrefix(buf, pos, GraphicsA + GraphicsCurrentTime + GraphicsLastTime + GraphicsB + GraphicsC + GraphicsD + GraphicsTyreCompound + GraphicsE, GraphicsCarCoordinates, acc, "currentTime");
    GraphicsEKeepsPinned();
    KeepsNotNamed(GraphicsE, GraphicsPinned, "currentTime");
    ReadFromPrefix(buf, pos, GraphicsA + GraphicsCurrentTime + GraphicsLastTime + GraphicsB + GraphicsC + GraphicsD + GraphicsTyreCompound, GraphicsE, acc, "currentTime");
    assert NotNamed(GraphicsTyreCompound, "currentTime");
    ReadFromPrefix(buf, pos, GraphicsA + GraphicsCurrentTime + GraphicsLastTime + GraphicsB + GraphicsC + GraphicsD, GraphicsTyreCompound, acc, "currentTime");
    GraphicsDKeepsPinned();
    KeepsNotNamed(GraphicsD, GraphicsPinned, "currentTime");
    ReadFromPrefix(buf, pos, GraphicsA + GraphicsCurrentTime + GraphicsLastTime + GraphicsB + GraphicsC, GraphicsD, acc, "currentTime");
    GraphicsCKeepsPinned();
    KeepsNotNamed(GraphicsC, GraphicsPinned, "currentTime");
    ReadFromPrefix(buf, pos, GraphicsA + GraphicsCurrentTime + GraphicsLastTime + GraphicsB, GraphicsC, acc, "currentTime");
    GraphicsBKeepsPinned();
    KeepsNotNamed(GraphicsB, GraphicsPinned, "currentTime");
    ReadFromPrefix(buf, pos, GraphicsA + GraphicsCurrentTime + GraphicsLastTime, GraphicsB, acc, "currentTime");
    assert NotNamed(GraphicsLastTime, "currentTime");
    ReadFromPrefix(buf, pos, GraphicsA + GraphicsCurrentTime, GraphicsLastTime, acc, "currentTime");
    GraphicsAWidth();
    FieldLast(buf, pos, GraphicsA, "currentTime", One(Wide(15)), acc);
  }

  /** `lastTime` holds what its own read at offset 42 produced. */
  lemma GraphicsLastTimeAt(buf: seq<byte>, pos: nat, acc: Frame)
    requires ReadFrom(buf, pos, Graphics, acc).Some?
    ensures ReadKind(buf, pos + 42, One(Wide(15))).Some?
    ensures var m := ReadFrom(buf, pos, Graphics, acc).value;
      "lastTime" in m && m["lastTime"] == ReadKind(buf, pos + 42, One(Wide(15))).value
  {
    GraphicsJKeepsPinned();
    KeepsNotNamed(GraphicsJ, GraphicsPinned, "lastTime");
    ReadFromPrefix(buf, pos, GraphicsA + GraphicsCurrentTime + GraphicsLastTime + GraphicsB + GraphicsC + GraphicsD + GraphicsTyreCompound + GraphicsE + GraphicsCarCoordinates + GraphicsCarIDs + GraphicsF + GraphicsG + GraphicsH + GraphicsI, GraphicsJ, acc, "lastTime");
    GraphicsIKeepsPinned();
    KeepsNotNamed(GraphicsI, GraphicsPinned, "lastTime");
    ReadFromPrefix(buf, pos, GraphicsA + GraphicsCurrentTime + GraphicsLastTime + GraphicsB + GraphicsC + GraphicsD + GraphicsTyreCompound + GraphicsE + GraphicsCarCoordinates + GraphicsCarIDs + GraphicsF + GraphicsG + GraphicsH, GraphicsI, acc, "lastTime");
    GraphicsHKeepsPinned();
    KeepsNotNamed(GraphicsH, GraphicsPinned, "lastTime");
    ReadFromPrefix(buf, pos, GraphicsA + GraphicsCurrentTime + GraphicsLastTime + GraphicsB + GraphicsC + GraphicsD + GraphicsTyreCompound + GraphicsE + GraphicsCarCoordinates + GraphicsCarIDs + GraphicsF + GraphicsG, GraphicsH, acc, "lastTime");
    GraphicsGKeepsPinned();
    KeepsNotNamed(GraphicsG, GraphicsPinned, "lastTime");
    ReadFromPrefix(buf, pos, GraphicsA + GraphicsCurrentTime + GraphicsLastTime + GraphicsB + GraphicsC + GraphicsD + GraphicsTyreCompound + GraphicsE + GraphicsCarCoordinates + GraphicsCarIDs + GraphicsF, GraphicsG, acc, "lastTime");
    GraphicsFKeepsPinned();
    KeepsNotNamed(GraphicsF, GraphicsPinned, "lastTime");
    ReadFromPrefix(buf, pos, GraphicsA + GraphicsCurrentTime + GraphicsLastTime + GraphicsB + GraphicsC + GraphicsD + GraphicsTyreCompound + GraphicsE + GraphicsCarCoordinates + GraphicsCarIDs, GraphicsF, acc, "lastTime");
    assert NotNamed(GraphicsCarIDs, "lastTime");
    ReadFromPrefix(buf, pos, GraphicsA + GraphicsCurrentTime + GraphicsLastTime + GraphicsB + GraphicsC + GraphicsD + GraphicsTyreCompound + GraphicsE + GraphicsCarCoordinates, GraphicsCarIDs, acc, "lastTime");
    assert NotNamed(GraphicsCarCoordinates, "lastTime");
    ReadFromPrefix(buf, pos, GraphicsA + GraphicsCurrentTime + GraphicsLastTime + GraphicsB + GraphicsC + GraphicsD + GraphicsTyreCompound + GraphicsE, GraphicsCarCoordinates, acc, "lastTime");
    GraphicsEKeepsPinned();
    KeepsNotNamed(GraphicsE, GraphicsPinned, "lastTime");
    ReadFromPrefix(buf, pos, GraphicsA + GraphicsCurrentTime + GraphicsLastTime + GraphicsB + GraphicsC + GraphicsD + GraphicsTyreCompound, GraphicsE, acc, "lastTime");
    assert NotNamed(GraphicsTyreCompound, "lastTime");
    ReadFromPrefix(buf, pos, GraphicsA + GraphicsCurrentTime + GraphicsLastTime + GraphicsB + GraphicsC + GraphicsD, GraphicsTyreCompound, acc, "lastTime");
    GraphicsDKeepsPinned();
    KeepsNotNamed(GraphicsD, GraphicsPinned, "lastTime");
    ReadFromPrefix(buf, pos, GraphicsA + GraphicsCurrentTime + GraphicsLastTime + GraphicsB + GraphicsC, GraphicsD, acc, "lastTime");
    GraphicsCKeepsPinned();
    KeepsNotNamed(GraphicsC, GraphicsPinned, "lastTime");
    ReadFromPrefix(buf, pos, GraphicsA + GraphicsCurrentTime + GraphicsLastTime + GraphicsB, GraphicsC, acc, "lastTime");
    GraphicsBKeepsPinned();
    KeepsNotNamed(GraphicsB, GraphicsPinned, "lastTime");
    ReadFromPrefix(buf, pos, GraphicsA + GraphicsCurrentTime + GraphicsLastTime, GraphicsB, acc, "lastTime");
    GraphicsAWidth();
    GraphicsCurrentTimeWidth();
    WidthAppend(GraphicsA, GraphicsCurrentTime);
    FieldLast(buf, pos, GraphicsA + GraphicsCurrentTime, "lastTime", One(Wide(15)), acc);
  }

  /** `tyreCompound` holds what its own read at offset 176 produced. */
  lemma GraphicsTyreCompoundAt(buf: seq<byte>, pos: nat, acc: Frame)
    requires ReadFrom(buf, pos, Graphics, acc).Some?
    ensures ReadKind(buf, pos + 176, One(Wide(33))).Some?
    ensures var m := ReadFrom(buf, pos, Graphics, acc).value;
      "tyreCompound" in m && m["tyreCompound"] == ReadKind(buf, pos + 176, One(Wide(33))).value
  {
    GraphicsJKeepsPinned();
    KeepsNotNamed(GraphicsJ, GraphicsPinned, "tyreCompound");
    ReadFromPrefix(buf, pos, GraphicsA + GraphicsCurrentTime + GraphicsLastTime + GraphicsB + GraphicsC + GraphicsD + GraphicsTyreCompound + GraphicsE + GraphicsCarCoordinates + GraphicsCarIDs + GraphicsF + GraphicsG + GraphicsH + GraphicsI, GraphicsJ, acc, "tyreCompound");
    GraphicsIKeepsPinned();
    KeepsNotNamed(GraphicsI, GraphicsPinned, "tyreCompound");
    ReadFromPrefix(buf, pos, GraphicsA + GraphicsCurrentTime + GraphicsLastTime + GraphicsB + GraphicsC + GraphicsD + GraphicsTyreCompound + GraphicsE + GraphicsCarCoordinates + GraphicsCarIDs + GraphicsF + GraphicsG + GraphicsH, GraphicsI, acc, "tyreCompound");
    GraphicsHKeepsPinned();
    KeepsNotNamed(GraphicsH, GraphicsPinned, "tyreCompound");
    ReadFromPrefix(buf, pos, GraphicsA + GraphicsCurrentTime + GraphicsLastTime + GraphicsB + GraphicsC + GraphicsD + GraphicsTyreCompound + GraphicsE + GraphicsCarCoordinates + GraphicsCarIDs + GraphicsF + GraphicsG, GraphicsH, acc, "tyreCompound");
    GraphicsGKeepsPinned();
    KeepsNotNamed(GraphicsG, GraphicsPinned, "tyreCompound");
    ReadFromPrefix(buf, pos, GraphicsA + GraphicsCurrentTime + GraphicsLastTime + GraphicsB + GraphicsC + GraphicsD + GraphicsTyreCompound + GraphicsE + GraphicsCarCoordinates + GraphicsCarIDs + GraphicsF, GraphicsG, acc, "tyreCompound");
    GraphicsFKeepsPinned();
    KeepsNotNamed(GraphicsF, GraphicsPinned, "tyreCompound");
    ReadFromPrefix(buf, pos, GraphicsA + GraphicsCurrentTime + GraphicsLastTime + GraphicsB + GraphicsC + GraphicsD + GraphicsTyreCompound + GraphicsE + GraphicsCarCoordinates + GraphicsCarIDs, GraphicsF, acc, "tyreCompound");
    assert NotNamed(GraphicsCarIDs, "tyreCompound");
    ReadFromPrefix(buf, pos, GraphicsA + GraphicsCurrentTime + GraphicsLastTime + GraphicsB + GraphicsC + GraphicsD + GraphicsTyreCompound + GraphicsE + GraphicsCarCoordinates, GraphicsCarIDs, acc, "tyreCompound");
    assert NotNamed(GraphicsCarCoordinates, "tyreCompound");
    ReadFromPrefix(buf, pos, GraphicsA + GraphicsCurrentTime + GraphicsLastTime + GraphicsB + GraphicsC + GraphicsD + GraphicsTyreCompound + GraphicsE, GraphicsCarCoordinates, acc, "tyreCompound");
    GraphicsEKeepsPinned();
    KeepsNotNamed(GraphicsE, GraphicsPinned, "tyreCompound");
    ReadFromPrefix(buf, pos, GraphicsA + GraphicsCurrentTime + GraphicsLastTime + GraphicsB + GraphicsC + GraphicsD + GraphicsTyreCompound, GraphicsE, acc, "tyreCompound");
    GraphicsAWidth();
    GraphicsCurrentTimeWidth();
    GraphicsLastTimeWidth();
    GraphicsBWidth();
    GraphicsCWidth();
    GraphicsDWidth();
    WidthAppend(GraphicsA, GraphicsCurrentTime);
    WidthAppend(GraphicsA + GraphicsCurrentTime, GraphicsLastTime);
    WidthAppend(GraphicsA + GraphicsCurrentTime + GraphicsLastTime, GraphicsB);
    WidthAppend(GraphicsA + GraphicsCurrentTime + GraphicsLastTime + GraphicsB, GraphicsC);
    WidthAppend(GraphicsA + GraphicsCurrentTime + GraphicsLastTime + GraphicsB + GraphicsC, GraphicsD);
    FieldLast(buf, pos, GraphicsA + GraphicsCurrentTime + GraphicsLastTime + GraphicsB + GraphicsC + GraphicsD, "tyreCompound", One(Wide(33)), acc);
  }

  /** `carCoordinates` holds what its own read at offset 254 produced. */
  lemma GraphicsCarCoordinatesAt(buf: seq<byte>, pos: nat, acc: Frame)
    requires ReadFrom(buf, pos, Graphics, acc).Some?
    ensures ReadKind(buf, pos + 254, Many(180, F32)).Some?
    ensures var m := ReadFrom(buf, pos, Graphics, acc).value;
      "carCoordinates" in m && m["carCoordinates"] == ReadKind(buf, pos + 254, Many(180, F32)).value
    ensures var m := ReadFrom(buf, pos, Graphics, acc).value;
      m["carCoordinates"].List? && |m["carCoordinates"].items| == 180
  {
    GraphicsJKeepsPinned();
    KeepsNotNamed(GraphicsJ, GraphicsPinned, "carCoordinates");
    ReadFromPrefix(buf, pos, GraphicsA + GraphicsCurrentTime + GraphicsLastTime + GraphicsB + GraphicsC + GraphicsD + GraphicsTyreCompound + GraphicsE + GraphicsCarCoordinates + GraphicsCarIDs + GraphicsF + GraphicsG + GraphicsH + GraphicsI, GraphicsJ, acc, "carCoordinates");
    GraphicsIKeepsPinned();
    KeepsNotNamed(GraphicsI, GraphicsPinned, "carCoordinates");
    ReadFromPrefix(buf, pos, GraphicsA + GraphicsCurrentTime + GraphicsLastTime + GraphicsB + GraphicsC + GraphicsD + GraphicsTyreCompound + GraphicsE + GraphicsCarCoordinates + GraphicsCarIDs + GraphicsF + GraphicsG + GraphicsH, GraphicsI, acc, "carCoordinates");
    GraphicsHKeepsPinned();
    KeepsNotNamed(GraphicsH, GraphicsPinned, "carCoordinates");
    ReadFromPrefix(buf, pos, GraphicsA + GraphicsCurrentTime + GraphicsLastTime + GraphicsB + GraphicsC + GraphicsD + GraphicsTyreCompound + GraphicsE + GraphicsCarCoordinates + GraphicsCarIDs + GraphicsF + GraphicsG, GraphicsH, acc, "carCoordinates");
    GraphicsGKeepsPinned();
    KeepsNotNamed(GraphicsG, GraphicsPinned, "carCoordinates");
    ReadFromPrefix(buf, pos, GraphicsA + GraphicsCurrentTime + GraphicsLastTime + GraphicsB + GraphicsC + GraphicsD + GraphicsTyreCompound + GraphicsE + GraphicsCarCoordinates + GraphicsCarIDs + GraphicsF, GraphicsG, acc, "carCoordinates");
    GraphicsFKeepsPinned();
    KeepsNotNamed(GraphicsF, GraphicsPinned, "carCoordinates");
    ReadFromPrefix(buf, pos, GraphicsA + GraphicsCurrentTime + GraphicsLastTime + GraphicsB + GraphicsC + GraphicsD + GraphicsTyreCompound + GraphicsE + GraphicsCarCoordinates + GraphicsCarIDs, GraphicsF, acc, "carCoordinates");
    assert NotNamed(GraphicsCarIDs, "carCoordinates");
    ReadFromPrefix(buf, pos, GraphicsA + GraphicsCurrentTime + GraphicsLastTime + GraphicsB + GraphicsC + GraphicsD + GraphicsTyreCompound + GraphicsE + GraphicsCarCoordinates, GraphicsCarIDs, acc, "carCoordinates");
    GraphicsAWidth();
    GraphicsCurrentTimeWidth();
    GraphicsLastTimeWidth();
    GraphicsBWidth();
    GraphicsCWidth();
    GraphicsDWidth();
    GraphicsTyreCompoundWidth();
    GraphicsEWidth();
    WidthAppend(GraphicsA, GraphicsCurrentTime);
    WidthAppend(GraphicsA + GraphicsCurrentTime, GraphicsLastTime);
    WidthAppend(GraphicsA + GraphicsCurrentTime + GraphicsLastTime, GraphicsB);
    WidthAppend(GraphicsA + GraphicsCurrentTime + GraphicsLastTime + GraphicsB, GraphicsC);
    WidthAppend(GraphicsA + GraphicsCurrentTime + GraphicsLastTime + GraphicsB + GraphicsC, GraphicsD);
    WidthAppend(GraphicsA + GraphicsCurrentTime + GraphicsLastTime + GraphicsB + GraphicsC + GraphicsD, GraphicsTyreCompound);
    WidthAppend(GraphicsA + GraphicsCurrentTime + GraphicsLastTime + GraphicsB + GraphicsC + GraphicsD + GraphicsTyreCompound, GraphicsE);
    FieldLast(buf, pos, GraphicsA + GraphicsCurrentTime + GraphicsLastTime + GraphicsB + GraphicsC + GraphicsD + GraphicsTyreCompound + GraphicsE, "carCoordinates", Many(180, F32), acc);
    ManyLength(buf, pos + 254, 180, F32);
  }

  /** `carIDs` holds what its own read at offset 974 produced. */
  lemma GraphicsCarIDsAt(buf: seq<byte>, pos: nat, acc: Frame)
    requires ReadFrom(buf, pos, Graphics, acc).Some?
    ensures ReadKind(buf, pos + 974, Many(60, I32)).Some?
    ensures var m := ReadFrom(buf, pos, Graphics, acc).value;
      "carIDs" in m && m["carIDs"] == ReadKind(buf, pos + 974, Many(60, I32)).value
    ensures var m := ReadFrom(buf, pos, Graphics, acc).value;
      m["carIDs"].List? && |m["carIDs"].items| == 60
  {
    GraphicsJKeepsPinned();
    KeepsNotNamed(GraphicsJ, GraphicsPinned, "carIDs");
    ReadFromPrefix(buf, pos, GraphicsA + GraphicsCurrentTime + GraphicsLastTime + GraphicsB + GraphicsC + GraphicsD + GraphicsTyreCompound + GraphicsE + GraphicsCarCoordinates + GraphicsCarIDs + GraphicsF + GraphicsG + GraphicsH + GraphicsI, GraphicsJ, acc, "carIDs");
    GraphicsIKeepsPinned();
    KeepsNotNamed(GraphicsI, GraphicsPinned, "carIDs");
    ReadFromPrefix(buf, pos, GraphicsA + GraphicsCurrentTime + GraphicsLastTime + GraphicsB + GraphicsC + GraphicsD + GraphicsTyreCompound + GraphicsE + GraphicsCarCoordinates + GraphicsCarIDs + GraphicsF + GraphicsG + GraphicsH, GraphicsI, acc, "carIDs");
    GraphicsHKeepsPinned();
    KeepsNotNamed(GraphicsH, GraphicsPinned, "carIDs");
    ReadFromPrefix(buf, pos, GraphicsA + GraphicsCurrentTime + GraphicsLastTime + GraphicsB + GraphicsC + GraphicsD + GraphicsTyreCompound + GraphicsE + GraphicsCarCoordinates + GraphicsCarIDs + GraphicsF + GraphicsG, GraphicsH, acc, "carIDs");
    GraphicsGKeepsPinned();
    KeepsNotNamed(GraphicsG, GraphicsPinned, "carIDs");
    ReadFromPrefix(buf, pos, GraphicsA + GraphicsCurrentTime + GraphicsLastTime + GraphicsB + GraphicsC + GraphicsD + GraphicsTyreCompound + GraphicsE + GraphicsCarCoordinates + GraphicsCarIDs + GraphicsF, GraphicsG, acc, "carIDs");
    GraphicsFKeepsPinned();
    KeepsNotNamed(GraphicsF, GraphicsPinned, "carIDs");
    ReadFromPrefix(buf, pos, GraphicsA + GraphicsCurrentTime + GraphicsLastTime + GraphicsB + GraphicsC + GraphicsD + GraphicsTyreCompound + GraphicsE + GraphicsCarCoordinates + GraphicsCarIDs, GraphicsF, acc, "carIDs");
    GraphicsAWidth();
    GraphicsCurrentTimeWidth();
    GraphicsLastTimeWidth();
    GraphicsBWidth();
    GraphicsCWidth();
    GraphicsDWidth();
    GraphicsTyreCompoundWidth();
    GraphicsEWidth();
    GraphicsCarCoordinatesWidth();
    WidthAppend(GraphicsA, GraphicsCurrentTime);
    WidthAppend(GraphicsA + GraphicsCurrentTime, GraphicsLastTime);
    WidthAppend(GraphicsA + GraphicsCurrentTime + GraphicsLastTime, GraphicsB);
    WidthAppend(GraphicsA + GraphicsCurrentTime + GraphicsLastTime + GraphicsB, GraphicsC);
    WidthAppend(GraphicsA + GraphicsCurrentTime + GraphicsLastTime + GraphicsB + GraphicsC, GraphicsD);
    WidthAppend(GraphicsA + GraphicsCurrentTime + GraphicsLastTime + GraphicsB + GraphicsC + GraphicsD, GraphicsTyreCompound);
    WidthAppend(GraphicsA + GraphicsCurrentTime + GraphicsLastTime + GraphicsB + GraphicsC + GraphicsD + GraphicsTyreCompound, GraphicsE);
    WidthAppend(GraphicsA + GraphicsCurrentTime + GraphicsLastTime + GraphicsB + GraphicsC + GraphicsD + GraphicsTyreCompound + GraphicsE, GraphicsCarCoordinates);
    FieldLast(buf, pos, GraphicsA + GraphicsCurrentTime + GraphicsLastTime + GraphicsB + GraphicsC + GraphicsD + GraphicsTyreCompound + GraphicsE + GraphicsCarCoordinates, "carIDs", Many(60, I32), acc);
    ManyLength(buf, pos + 974, 60, I32);
  }

  /** Static page after the type byte: src/decoders/assetto-corsa.ts:995-1103 */
  const StaticPinned: set<string> := {"smVersion", "acVersion", "carModel", "track"}

  const StaticSmVersion: Layout := [
    Field("smVersion", One(Wide(15)))
  ]

  const StaticAcVersion: Layout := [
    Field("acVersion", One(Wide(15)))
  ]

  const StaticA: Layout := [
    Field("numberOfSessions", One(I32)),
    Field("numCars", One(I32))
  ]

  const StaticCarModel: Layout := [
    Field("carModel", One(Wide(33)))
  ]

  const StaticTrack: Layout := [
    Field("track", One(Wide(33)))
  ]

  const StaticB: Layout := [
    Field("playerName", One(Wide(33))),
    Field("playerSurname", One(Wide(33))),
    Field("playerNick", One(Wide(33))),
    Field("sectorCount", One(I32)),
    Field("maxTorque", One(F32)),
    Field("maxPower", One(F32))
  ]

  const StaticC: Layout := [
    Field("maxRpm", One(I32)),
    Field("maxFuel", One(F32)),
    Field("suspensionMaxTravelFL", One(F32)),
    Field("suspensionMaxTravelFR", One(F32)),
    Field("suspensionMaxTravelRL", One(F32)),
    Field("suspensionMaxTravelRR", One(F32))
  ]

  const StaticD: Layout := [
    Field("tyreRadiusFL", One(F32)),
    Field("tyreRadiusFR", One(F32)),
    Field("tyreRadiusRL", One(F32)),
    Field("tyreRadiusRR", One(F32)),
    Field("maxTurboBoost", One(F32)),
    Field("deprecated_1", One(F32))
  ]

  const StaticE: Layout := [
    Field("deprecated_2", One(F32)),
    Field("penaltiesEnabled", One(I32)),
    Field("aidFuelRate", One(F32)),
    Field("aidTireRate", One(F32)),
    Field("aidMechanicalDamage", One(F32)),
    Field("aidAllowTyreBlankets", One(I32))
  ]

  const StaticF: Layout := [
    Field("aidStability", One(F32)),
    Field("aidAutoClutch", One(I32)),
    Field("aidAutoBlip", One(I32)),
    Field("hasDRS", One(I32)),
    Field("hasERS", One(I32)),
    Field("hasKERS", One(I32))
  ]

  const StaticG: Layout := [
    Field("kersMaxJ", One(F32)),
    Field("engineBrakeSettingsCount", One(I32)),
    Field("ersPowerControllerCount", One(I32)),
    Field("trackSPlineLength", One(F32)),
    Field("trackConfiguration", One(Wide(33))),
    Field("ersMaxJ", One(F32))
  ]

  const StaticH: Layout := [
    Field("isTimedRace", One(I32)),
    Field("hasExtraLap", One(I32)),
    Field("carSkin", One(Wide(33))),
    Field("reversedGridPositions", One(I32)),
    Field("PitWindowStart", One(I32)),
    Field("PitWindowEnd", One(I32))
  ]

  const StaticI: Layout := [
    Field("isOnline", One(I32))
  ]

  lemma StaticSmVersionWidth()
    ensures Width(StaticSmVersion) == 30
  {
  }

  lemma StaticSmVersionKeepsFrameKeys()
    ensures Keeps(StaticSmVersion, FrameKeys)
  {
  }

  lemma StaticAcVersionWidth()
    ensures Width(StaticAcVersion) == 30
  {
  }

  lemma StaticAcVersionKeepsFrameKeys()
    ensures Keeps(StaticAcVersion, FrameKeys)
  {
  }

  lemma StaticAWidth()
    ensures Width(StaticA) == 8
  {
  }

  lemma StaticAKeepsFrameKeys()
    ensures Keeps(StaticA, FrameKeys)
  {
  }

  lemma StaticAKeepsPinned()
    ensures Keeps(StaticA, StaticPinned)
  {
  }

  lemma StaticCarModelWidth()
    ensures Width(StaticCarModel) == 66
  {
  }

  lemma StaticCarModelKeepsFrameKeys()
    ensures Keeps(StaticCarModel, FrameKeys)
  {
  }

  lemma StaticTrackWidth()
    ensures Width(StaticTrack) == 66
  {
  }

  lemma StaticTrackKeepsFrameKeys()
    ensures Keeps(StaticTrack, FrameKeys)
  {
  }

  lemma StaticBWidth()
    ensures Width(StaticB) == 210
  {
  }

  lemma StaticBKeepsFrameKeys()
    ensures Keeps(StaticB, FrameKeys)
  {
  }

  lemma StaticBKeepsPinned()
    ensures Keeps(StaticB, StaticPinned)
  {
  }

  lemma StaticCWidth()
    ensures Width(StaticC) == 24
  {
  }

  lemma StaticCKeepsFrameKeys()
    ensures Keeps(StaticC, FrameKeys)
  {
  }

  lemma StaticCKeepsPinned()
    ensures Keeps(StaticC, StaticPinned)
  {
  }

  lemma StaticDWidth()
    ensures Width(StaticD) == 24
  {
  }

  lemma StaticDKeepsFrameKeys()
    ensures Keeps(StaticD, FrameKeys)
  {
  }

  lemma StaticDKeepsPinned()
    ensures Keeps(StaticD, StaticPinned)
  {
  }

  lemma StaticEWidth()
    ensures Width(StaticE) == 24
  {
  }

  lemma StaticEKeepsFrameKeys()
    ensures Keeps(StaticE, FrameKeys)
  {
  }

  lemma StaticEKeepsPinned()
    ensures Keeps(StaticE, StaticPinned)
  {
  }

  lemma StaticFWidth()
    ensures Width(StaticF) == 24
  {
  }

  lemma StaticFKeepsFrameKeys()
    ensures Keeps(StaticF, FrameKeys)
  {
  }

  lemma StaticFKeepsPinned()
    ensures Keeps(StaticF, StaticPinned)
  {
  }

  lemma StaticGWidth()
    ensures Width(StaticG) == 86
  {
  }

  lemma StaticGKeepsFrameKeys()
    ensures Keeps(StaticG, FrameKeys)
  {
  }

  lemma StaticGKeepsPinned()
    ensures Keeps(StaticG, StaticPinned)
  {
  }

  lemma StaticHWidth()
    ensures Width(StaticH) == 86
  {
  }

  lemma StaticHKeepsFrameKeys()
    ensures Keeps(StaticH, FrameKeys)
  {
  }

  lemma StaticHKeepsPinned()
    ensures Keeps(StaticH, StaticPinned)
  {
  }

  lemma StaticIWidth()
    ensures Width(StaticI) == 4
  {
  }

  lemma StaticIKeepsFrameKeys()
    ensures Keeps(StaticI, FrameKeys)
  {
  }

  lemma StaticIKeepsPinned()
    ensures Keeps(StaticI, StaticPinned)
  {
  }

  const Static: Layout := StaticSmVersion + StaticAcVersion + StaticA + StaticCarModel + StaticTrack + StaticB + StaticC + StaticD + StaticE + StaticF + StaticG + StaticH + StaticI

  lemma StaticShape()
    ensures Width(Static) == 682 && EndsStrict(Static) && Keeps(Static, FrameKeys)
  {
    StaticSmVersionWidth();
    StaticSmVersionKeepsFrameKeys();
    StaticAcVersionWidth();
    StaticAcVersionKeepsFrameKeys();
    StaticAWidth();
    StaticAKeepsFrameKeys();
    StaticCarModelWidth();
    StaticCarModelKeepsFrameKeys();
    StaticTrackWidth();
    StaticTrackKeepsFrameKeys();
    StaticBWidth();
    StaticBKeepsFrameKeys();
    StaticCWidth();
    StaticCKeepsFrameKeys();
    StaticDWidth();
    StaticDKeepsFrameKeys();
    StaticEWidth();
    StaticEKeepsFrameKeys();
    StaticFWidth();
    StaticFKeepsFrameKeys();
    StaticGWidth();
    StaticGKeepsFrameKeys();
    StaticHWidth();
    StaticHKeepsFrameKeys();
    StaticIWidth();
    StaticIKeepsFrameKeys();
    WidthAppend(StaticSmVersion, StaticAcVersion);
    KeepsAppend(StaticSmVersion, StaticAcVersion, FrameKeys);
    WidthAppend(StaticSmVersion + StaticAcVersion, StaticA);
    KeepsAppend(StaticSmVersion + StaticAcVersion, StaticA, FrameKeys);
    WidthAppend(StaticSmVersion + StaticAcVersion + StaticA, StaticCarModel);
    KeepsAppend(StaticSmVersion + StaticAcVersion + StaticA, StaticCarModel, FrameKeys);
    WidthAppend(StaticSmVersion + StaticAcVersion + StaticA + StaticCarModel, StaticTrack);
    KeepsAppend(StaticSmVersion + StaticAcVersion + StaticA + StaticCarModel, StaticTrack, FrameKeys);
    WidthAppend(StaticSmVersion + StaticAcVersion + StaticA + StaticCarModel + StaticTrack, StaticB);
    KeepsAppend(StaticSmVersion + StaticAcVersion + StaticA + StaticCarModel + StaticTrack, StaticB, FrameKeys);
    WidthAppend(StaticSmVersion + StaticAcVersion + StaticA + StaticCarModel + StaticTrack + StaticB, StaticC);
    KeepsAppend(StaticSmVersion + StaticAcVersion + StaticA + StaticCarModel + StaticTrack + StaticB, StaticC, FrameKeys);
    WidthAppend(StaticSmVersion + StaticAcVersion + StaticA + StaticCarModel + StaticTrack + StaticB + StaticC, StaticD);
    KeepsAppend(StaticSmVersion + StaticAcVersion + StaticA + StaticCarModel + StaticTrack + StaticB + StaticC, StaticD, FrameKeys);
    WidthAppend(StaticSmVersion + StaticAcVersion + StaticA + StaticCarModel + StaticTrack + StaticB + StaticC + StaticD, StaticE);
    KeepsAppend(StaticSmVersion + StaticAcVersion + StaticA + StaticCarModel + StaticTrack + StaticB + StaticC + StaticD, StaticE, FrameKeys);
    WidthAppend(StaticSmVersion + StaticAcVersion + StaticA + StaticCarModel + StaticTrack + StaticB + StaticC + StaticD + StaticE, StaticF);
    KeepsAppend(StaticSmVersion + StaticAcVersion + StaticA + StaticCarModel + StaticTrack + StaticB + StaticC + StaticD + StaticE, StaticF, FrameKeys);
    WidthAppend(StaticSmVersion + StaticAcVersion + StaticA + StaticCarModel + StaticTrack + StaticB + StaticC + StaticD + StaticE + StaticF, StaticG);
    KeepsAppend(StaticSmVersion + StaticAcVersion + StaticA + StaticCarModel + StaticTrack + StaticB + StaticC + StaticD + StaticE + StaticF, StaticG, FrameKeys);
    WidthAppend(StaticSmVersion + StaticAcVersion + StaticA + StaticCarModel + StaticTrack + StaticB + StaticC + StaticD + StaticE + StaticF + StaticG, StaticH);
    KeepsAppend(StaticSmVersion + StaticAcVersion + StaticA + StaticCarModel + StaticTrack + StaticB + StaticC + StaticD + StaticE + StaticF + StaticG, StaticH, FrameKeys);
    WidthAppend(StaticSmVersion + StaticAcVersion + StaticA + StaticCarModel + StaticTrack + StaticB + StaticC + StaticD + StaticE + StaticF + StaticG + StaticH, StaticI);
    KeepsAppend(StaticSmVersion + StaticAcVersion + StaticA + StaticCarModel + StaticTrack + StaticB + StaticC + StaticD + StaticE + StaticF + StaticG + StaticH, StaticI, FrameKeys);
    assert EndsStrict(StaticI);
    EndsStrictAppend(StaticSmVersion + StaticAcVersion + StaticA + StaticCarModel + StaticTrack + StaticB + StaticC + StaticD + StaticE + StaticF + StaticG + StaticH, StaticI);
  }

  /** `smVersion` holds what its own read at offset 0 produced. */
  lemma StaticSmVersionAt(buf: seq<byte>, pos: nat, acc: Frame)
    requires ReadFrom(buf, pos, Static, acc).Some?
    ensures ReadKind(buf, pos + 0, One(Wide(15))).Some?
    ensures var m := ReadFrom(buf, pos, Static, acc).value;
      "smVersion" in m && m["smVersion"] == ReadKind(buf, pos + 0, One(Wide(15))).value
  {
    StaticIKeepsPinned();
    KeepsNotNamed(StaticI, StaticPinned, "smVersion");
    ReadFromPrefix(buf, pos, StaticSmVersion + StaticAcVersion + StaticA + StaticCarModel + StaticTrack + StaticB + StaticC + StaticD + StaticE + StaticF + StaticG + StaticH, StaticI, acc, "smVersion");
    StaticHKeepsPinned();
    KeepsNotNamed(StaticH, StaticPinned, "smVersion");
    ReadFromPrefix(buf, pos, StaticSmVersion + StaticAcVersion + StaticA + StaticCarModel + StaticTrack + StaticB + StaticC + StaticD + StaticE + StaticF + StaticG, StaticH, acc, "smVersion");
    StaticGKeepsPinned();
    KeepsNotNamed(StaticG, StaticPinned, "smVersion");
    ReadFromPrefix(buf, pos, StaticSmVersion + StaticAcVersion + StaticA + StaticCarModel + StaticTrack + StaticB + StaticC + StaticD + StaticE + StaticF, StaticG, acc, "smVersion");
    StaticFKeepsPinned();
    KeepsNotNamed(StaticF, StaticPinned, "smVersion");
    ReadFromPrefix(buf, pos, StaticSmVersion + StaticAcVersion + StaticA + StaticCarModel + StaticTrack + StaticB + StaticC + StaticD + StaticE, StaticF, acc, "smVersion");
    StaticEKeepsPinned();
    KeepsNotNamed(StaticE, StaticPinned, "smVersion");
    ReadFromPrefix(buf, pos, StaticSmVersion + StaticAcVersion + StaticA + StaticCarModel + StaticTrack + StaticB + StaticC + StaticD, StaticE, acc, "smVersion");
    StaticDKeepsPinned();
    KeepsNotNamed(StaticD, StaticPinned, "smVersion");
    ReadFromPrefix(buf, pos, StaticSmVersion + StaticAcVersion + StaticA + StaticCarModel + StaticTrack + StaticB + StaticC, StaticD, acc, "smVersion");
    StaticCKeepsPinned();
    KeepsNotNamed(StaticC, StaticPinned, "smVersion");
    ReadFromPrefix(buf, pos, StaticSmVersion + StaticAcVersion + StaticA + StaticCarModel + StaticTrack + StaticB, StaticC, acc, "smVersion");
    StaticBKeepsPinned();
    KeepsNotNamed(StaticB, StaticPinned, "smVersion");
    ReadFromPrefix(buf, pos, StaticSmVersion + StaticAcVersion + StaticA + StaticCarModel + StaticTrack, StaticB, acc, "smVersion");
    assert NotNamed(StaticTrack, "smVersion");
    ReadFromPrefix(buf, pos, StaticSmVersion + StaticAcVersion + StaticA + StaticCarModel, StaticTrack, acc, "smVersion");
    assert NotNamed(StaticCarModel, "smVersion");
    ReadFromPrefix(buf, pos, StaticSmVersion + StaticAcVersion + StaticA, StaticCarModel, acc, "smVersion");
    StaticAKeepsPinned();
    KeepsNotNamed(StaticA, StaticPinned, "smVersion");
    ReadFromPrefix(buf, pos, StaticSmVersion + StaticAcVersion, StaticA, acc, "smVersion");
    assert NotNamed(StaticAcVersion, "smVersion");
    ReadFromPrefix(buf, pos, StaticSmVersion, StaticAcVersion, acc, "smVersion");
    FieldFirst(buf, pos, "smVersion", One(Wide(15)), acc);
  }

  /** `acVersion` holds what its own read at offset 30 produced. */
  lemma StaticAcVersionAt(buf: seq<byte>, pos: nat, acc: Frame)
    requires ReadFrom(buf, pos, Static, acc).Some?
    ensures ReadKind(buf, pos + 30, One(Wide(15))).Some?
    ensures var m := ReadFrom(buf, pos, Static, acc).value;
      "acVersion" in m && m["acVersion"] == ReadKind(buf, pos + 30, One(Wide(15))).value
  {
    StaticIKeepsPinned();
    KeepsNotNamed(StaticI, StaticPinned, "acVersion");
    ReadFromPrefix(buf, pos, StaticSmVersion + StaticAcVersion + StaticA + StaticCarModel + StaticTrack + StaticB + StaticC + StaticD + StaticE + StaticF + StaticG + StaticH, StaticI, acc, "acVersion");
    StaticHKeepsPinned();
    KeepsNotNamed(StaticH, StaticPinned, "acVersion");
    ReadFromPrefix(buf, pos, StaticSmVersion + StaticAcVersion + StaticA + StaticCarModel + StaticTrack + StaticB + StaticC + StaticD + StaticE + StaticF + StaticG, StaticH, acc, "acVersion");
    StaticGKeepsPinned();
    KeepsNotNamed(StaticG, StaticPinned, "acVersion");
    ReadFromPrefix(buf, pos, StaticSmVersion + StaticAcVersion + StaticA + StaticCarModel + StaticTrack + StaticB + StaticC + StaticD + StaticE + StaticF, StaticG, acc, "acVersion");
    StaticFKeepsPinned();
    KeepsNotNamed(StaticF, StaticPinned, "acVersion");
    ReadFromPrefix(buf, pos, StaticSmVersion + StaticAcVersion + StaticA + StaticCarModel + StaticTrack + StaticB + StaticC + StaticD + StaticE, StaticF, acc, "acVersion");
    StaticEKeepsPinned();
    KeepsNotNamed(StaticE, StaticPinned, "acVersion");
    ReadFromPrefix(buf, pos, StaticSmVersion + StaticAcVersion + StaticA + StaticCarModel + StaticTrack + StaticB + StaticC + StaticD, StaticE, acc, "acVersion");
    StaticDKeepsPinned();
    KeepsNotNamed(StaticD, StaticPinned, "acVersion");
    ReadFromPrefix(buf, pos, StaticSmVersion + StaticAcVersion + StaticA + StaticCarModel + StaticTrack + StaticB + StaticC, StaticD, acc, "acVersion");
    StaticCKeepsPinned();
    KeepsNotNamed(StaticC, StaticPinned, "acVersion");
    ReadFromPrefix(buf, pos, StaticSmVersion + StaticAcVersion + StaticA + StaticCarModel + StaticTrack + StaticB, StaticC, acc, "acVersion");
    StaticBKeepsPinned();
    KeepsNotNamed(StaticB, StaticPinned, "acVersion");
    ReadFromPrefix(buf, pos, StaticSmVersion + StaticAcVersion + StaticA + StaticCarModel + StaticTrack, StaticB, acc, "acVersion");
    assert NotNamed(StaticTrack, "acVersion");
    ReadFromPrefix(buf, pos, StaticSmVersion + StaticAcVersion + StaticA + StaticCarModel, StaticTrack, acc, "acVersion");
    assert NotNamed(StaticCarModel, "acVersion");
    ReadFromPrefix(buf, pos, StaticSmVersion + StaticAcVersion + StaticA, StaticCarModel, acc, "acVersion");
    StaticAKeepsPinned();
    KeepsNotNamed(StaticA, StaticPinned, "acVersion");
    ReadFromPrefix(buf, pos, StaticSmVersion + StaticAcVersion, StaticA, acc, "acVersion");
    StaticSmVersionWidth();
    FieldLast(buf, pos, StaticSmVersion, "acVersion", One(Wide(15)), acc);
  }

  /** `carModel` holds what its own read at offset 68 produced. */
  lemma StaticCarModelAt(buf: seq<byte>, pos: nat, acc: Frame)
    requires ReadFrom(buf, pos, Static, acc).Some?
    ensures ReadKind(buf, pos + 68, One(Wide(33))).Some?
    ensures var m := ReadFrom(buf, pos, Static, acc).value;
      "carModel" in m && m["carModel"] == ReadKind(buf, pos + 68, One(Wide(33))).value
  {
    StaticIKeepsPinned();
    KeepsNotNamed(StaticI, StaticPinned, "carModel");
    ReadFromPrefix(buf, pos, StaticSmVersion + StaticAcVersion + StaticA + StaticCarModel + StaticTrack + StaticB + StaticC + StaticD + StaticE + StaticF + StaticG + StaticH, StaticI, acc, "carModel");
    StaticHKeepsPinned();
    KeepsNotNamed(StaticH, StaticPinned, "carModel");
    ReadFromPrefix(buf, pos, StaticSmVersion + StaticAcVersion + StaticA + StaticCarModel + StaticTrack + StaticB + StaticC + StaticD + StaticE + StaticF + StaticG, StaticH, acc, "carModel");
    StaticGKeepsPinned();
    KeepsNotNamed(StaticG, StaticPinned, "carModel");
    ReadFromPrefix(buf, pos, StaticSmVersion + StaticAcVersion + StaticA + StaticCarModel + StaticTrack + StaticB + StaticC + StaticD + StaticE + StaticF, StaticG, acc, "carModel");
    StaticFKeepsPinned();
    KeepsNotNamed(StaticF, StaticPinned, "carModel");
    ReadFromPrefix(buf, pos, StaticSmVersion + StaticAcVersion + StaticA + StaticCarModel + StaticTrack + StaticB + StaticC + StaticD + StaticE, StaticF, acc, "carModel");
    StaticEKeepsPinned();
    KeepsNotNamed(StaticE, StaticPinned, "carModel");
    ReadFromPrefix(buf, pos, StaticSmVersion + StaticAcVersion + StaticA + StaticCarModel + StaticTrack + StaticB + StaticC + StaticD, StaticE, acc, "carModel");
    StaticDKeepsPinned();
    KeepsNotNamed(StaticD, StaticPinned, "carModel");
    ReadFromPrefix(buf, pos, StaticSmVersion + StaticAcVersion + StaticA + StaticCarModel + StaticTrack + StaticB + StaticC, StaticD, acc, "carModel");
    StaticCKeepsPinned();
    KeepsNotNamed(StaticC, StaticPinned, "carModel");
    ReadFromPrefix(buf, pos, StaticSmVersion + StaticAcVersion + StaticA + StaticCarModel + StaticTrack + StaticB, StaticC, acc, "carModel");
    StaticBKeepsPinned();
    KeepsNotNamed(StaticB, StaticPinned, "carModel");
    ReadFromPrefix(buf, pos, StaticSmVersion + StaticAcVersion + StaticA + StaticCarModel + StaticTrack, StaticB, acc, "carModel");
    assert NotNamed(StaticTrack, "carModel");
    ReadFromPrefix(buf, pos, StaticSmVersion + StaticAcVersion + StaticA + StaticCarModel, StaticTrack, acc, "carModel");
    StaticSmVersionWidth();
    StaticAcVersionWidth();
    StaticAWidth();
    WidthAppend(StaticSmVersion, StaticAcVersion);
    WidthAppend(StaticSmVersion + StaticAcVersion, StaticA);
    FieldLast(buf, pos, StaticSmVersion + StaticAcVersion + StaticA, "carModel", One(Wide(33)), acc);
  }

  /** `track` holds what its own read at offset 134 produced. */
  lemma StaticTrackAt(buf: seq<byte>, pos: nat, acc: Frame)
    requires ReadFrom(buf, pos, Static, acc).Some?
    ensures ReadKind(buf, pos + 134, One(Wide(33))).Some?
    ensures var m := ReadFrom(buf, pos, Static, acc).value;
      "track" in m && m["track"] == ReadKind(buf, pos + 134, One(Wide(33))).value
  {
    StaticIKeepsPinned();
    KeepsNotNamed(StaticI, StaticPinned, "track");
    ReadFromPrefix(buf, pos, StaticSmVersion + StaticAcVersion + StaticA + StaticCarModel + StaticTrack + StaticB + StaticC + StaticD + StaticE + StaticF + StaticG + StaticH, StaticI, acc, "track");
    StaticHKeepsPinned();
    KeepsNotNamed(StaticH, StaticPinned, "track");
    ReadFromPrefix(buf, pos, StaticSmVersion + StaticAcVersion + StaticA + StaticCarModel + StaticTrack + StaticB + StaticC + StaticD + StaticE + StaticF + StaticG, StaticH, acc, "track");
    StaticGKeepsPinned();
    KeepsNotNamed(StaticG, StaticPinned, "track");
    ReadFromPrefix(buf, pos, StaticSmVersion + StaticAcVersion + StaticA + StaticCarModel + StaticTrack + StaticB + StaticC + StaticD + StaticE + StaticF, StaticG, acc, "track");
    StaticFKeepsPinned();
    KeepsNotNamed(StaticF, StaticPinned, "track");
    ReadFromPrefix(buf, pos, StaticSmVersion + StaticAcVersion + StaticA + StaticCarModel + StaticTrack + StaticB + StaticC + StaticD + StaticE, StaticF, acc, "track");
    StaticEKeepsPinned();
    KeepsNotNamed(StaticE, StaticPinned, "track");
    ReadFromPrefix(buf, pos, StaticSmVersion + StaticAcVersion + StaticA + StaticCarModel + StaticTrack + StaticB + StaticC + StaticD, StaticE, acc, "track");
    StaticDKeepsPinned();
    KeepsNotNamed(StaticD, StaticPinned, "track");
    ReadFromPrefix(buf, pos, StaticSmVersion + StaticAcVersion + StaticA + StaticCarModel + StaticTrack + StaticB + StaticC, StaticD, acc, "track");
    StaticCKeepsPinned();
    KeepsNotNamed(StaticC, StaticPinned, "track");
    ReadFromPrefix(buf, pos, StaticSmVersion + StaticAcVersion + StaticA + StaticCarModel + StaticTrack + StaticB, StaticC, acc, "track");
    StaticBKeepsPinned();
    KeepsNotNamed(StaticB, StaticPinned, "track");
    ReadFromPrefix(buf, pos, StaticSmVersion + StaticAcVersion + StaticA + StaticCarModel + StaticTrack, StaticB, acc, "track");
    StaticSmVersionWidth();
    StaticAcVersionWidth();
    StaticAWidth();
    StaticCarModelWidth();
    WidthAppend(StaticSmVersion, StaticAcVersion);
    WidthAppend(StaticSmVersion + StaticAcVersion, StaticA);
    WidthAppend(StaticSmVersion + StaticAcVersion + StaticA, StaticCarModel);
    FieldLast(buf, pos, StaticSmVersion + StaticAcVersion + StaticA + StaticCarModel, "track", One(Wide(33)), acc);
  }
}
