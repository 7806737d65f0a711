/**
 * The body layouts of the F1 25 decoder, in wire order: each list is the
 * sequence of reads and skips its `decode*Packet` function performs with its
 * moving offset, starting at the player's record (or the body start).
 * Long layouts are split into groups; each `...Shape` lemma states the width
 * of the walk, that it ends in a read that throws past the end (where it
 * does), and that it writes none of the header keys.
 */
module F1Layouts25 {
  import opened Frames
  import opened Layout
  import opened F1Common

  /** Car motion record: src/decoders/f1-2025.ts:761-796 */
  const MotionA: Layout := [
    Field("worldPositionX", One(F32)),
    Field("worldPositionY", One(F32)),
    Field("worldPositionZ", One(F32)),
    Field("worldVelocityX", One(F32)),
    Field("worldVelocityY", One(F32)),
    Field("worldVelocityZ", One(F32))
  ]

  const MotionB: Layout := [
    Field("worldForwardDirX", One(Norm16)),
    Field("worldForwardDirY", One(Norm16)),
    Field("worldForwardDirZ", One(Norm16)),
    Field("worldRightDirX", One(Norm16)),
    Field("worldRightDirY", One(Norm16)),
    Field("worldRightDirZ", One(Norm16))
  ]

  const MotionC: Layout := [
    Field("gForceLateral", One(F32)),
    Field("gForceLongitudinal", One(F32)),
    Field("gForceVertical", One(F32)),
    Field("yaw", One(F32)),
    Field("pitch", One(F32)),
    Field("roll", One(F32))
  ]

  lemma MotionAWidth()
    ensures Width(MotionA) == 24
  {
  }

  lemma MotionAKeepsHeaderKeys()
    ensures Keeps(MotionA, HeaderKeys)
  {
  }

  lemma MotionBWidth()
    ensures Width(MotionB) == 12
  {
  }

  lemma MotionBKeepsHeaderKeys()
    ensures Keeps(MotionB, HeaderKeys)
  {
  }

  lemma MotionCWidth()
    ensures Width(MotionC) == 24
  {
  }

  lemma MotionCKeepsHeaderKeys()
    ensures Keeps(MotionC, HeaderKeys)
  {
  }

  const Motion: Layout := MotionA + MotionB + MotionC

  lemma MotionShape()
    ensures Width(Motion) == 60 && EndsStrict(Motion) && Keeps(Motion, HeaderKeys)
  {
    MotionAWidth();
    MotionAKeepsHeaderKeys();
    MotionBWidth();
    MotionBKeepsHeaderKeys();
    MotionCWidth();
    MotionCKeepsHeaderKeys();
    WidthAppend(MotionA, MotionB);
    KeepsAppend(MotionA, MotionB, HeaderKeys);
    WidthAppend(MotionA + MotionB, MotionC);
    KeepsAppend(MotionA + MotionB, MotionC, HeaderKeys);
    assert EndsStrict(MotionC);
    EndsStrictAppend(MotionA + MotionB, MotionC);
  }

  /** Car telemetry record: src/decoders/f1-2025.ts:798-846 */
  const CarTelemetryA: Layout := [
    Field("speed", One(U16)),
    Field("throttle", One(F32)),
    Field("steer", One(F32)),
    Field("brake", One(F32)),
    Field("clutch", One(U8)),
    Field("gear", One(I8))
  ]

  const CarTelemetryB: Layout := [
    Field("engineRPM", One(U16)),
    Field("drs", One(U8)),
    Field("revLightsPercent", One(U8)),
    Field("revLightsBitValue", One(U16)),
    Field("brakesTemperatureRL", One(U16)),
    Field("brakesTemperatureRR", One(U16))
  ]

  const CarTelemetryC: Layout := [
    Field("brakesTemperatureFL", One(U16)),
    Field("brakesTemperatureFR", One(U16)),
    Field("tyresSurfaceTemperatureRL", One(U8)),
    Field("tyresSurfaceTemperatureRR", One(U8)),
    Field("tyresSurfaceTemperatureFL", One(U8)),
    Field("tyresSurfaceTemperatureFR", One(U8))
  ]

  const CarTelemetryD: Layout := [
    Field("tyresInnerTemperatureRL", One(U8)),
    Field("tyresInnerTemperatureRR", One(U8)),
    Field("tyresInnerTemperatureFL", One(U8)),
    Field("tyresInnerTemperatureFR", One(U8)),
    Field("engineTemperature", One(U16)),
    Field("tyresPressureRL", One(F32))
  ]

  const CarTelemetryE: Layout := [
    Field("tyresPressureRR", One(F32)),
    Field("tyresPressureFL", One(F32)),
    Field("tyresPressureFR", One(F32)),
    Field("surfaceTypeRL", One(U8)),
    Field("surfaceTypeRR", One(U8)),
    Field("surfaceTypeFL", One(U8))
  ]

  const CarTelemetryF: Layout := [
    Field("surfaceTypeFR", One(U8))
  ]

  lemma CarTelemetryAWidth()
    ensures Width(CarTelemetryA) == 16
  {
  }

  lemma CarTelemetryAKeepsHeaderKeys()
    ensures Keeps(CarTelemetryA, HeaderKeys)
  {
  }

  lemma CarTelemetryBWidth()
    ensures Width(CarTelemetryB) == 10
  {
  }

  lemma CarTelemetryBKeepsHeaderKeys()
    ensures Keeps(CarTelemetryB, HeaderKeys)
  {
  }

  lemma CarTelemetryCWidth()
    ensures Width(CarTelemetryC) == 8
  {
  }

  lemma CarTelemetryCKeepsHeaderKeys()
    ensures Keeps(CarTelemetryC, HeaderKeys)
  {
  }

  lemma CarTelemetryDWidth()
    ensures Width(CarTelemetryD) == 10
  {
  }

  lemma CarTelemetryDKeepsHeaderKeys()
    ensures Keeps(CarTelemetryD, HeaderKeys)
  {
  }

  lemma CarTelemetryEWidth()
    ensures Width(CarTelemetryE) == 15
  {
  }

  lemma CarTelemetryEKeepsHeaderKeys()
    ensures Keeps(CarTelemetryE, HeaderKeys)
  {
  }

  lemma CarTelemetryFWidth()
    ensures Width(CarTelemetryF) == 1
  {
  }

  lemma CarTelemetryFKeepsHeaderKeys()
    ensures Keeps(CarTelemetryF, HeaderKeys)
  {
  }

  const CarTelemetryPart1: Layout := CarTelemetryA + CarTelemetryB + CarTelemetryC + CarTelemetryD

  lemma CarTelemetryPart1Width()
    ensures Width(CarTelemetryPart1) == 44
  {
    CarTelemetryAWidth();
    CarTelemetryBWidth();
    CarTelemetryCWidth();
    CarTelemetryDWidth();
    WidthAppend(CarTelemetryA, CarTelemetryB);
    WidthAppend(CarTelemetryA + CarTelemetryB, CarTelemetryC);
    WidthAppend(CarTelemetryA + CarTelemetryB + CarTelemetryC, CarTelemetryD);
  }

  lemma CarTelemetryPart1KeepsHeaderKeys()
    ensures Keeps(CarTelemetryPart1, HeaderKeys)
  {
    CarTelemetryAKeepsHeaderKeys();
    CarTelemetryBKeepsHeaderKeys();
    CarTelemetryCKeepsHeaderKeys();
    CarTelemetryDKeepsHeaderKeys();
    KeepsAppend(CarTelemetryA, CarTelemetryB, HeaderKeys);
    KeepsAppend(CarTelemetryA + CarTelemetryB, CarTelemetryC, HeaderKeys);
    KeepsAppend(CarTelemetryA + CarTelemetryB + CarTelemetryC, CarTelemetryD, HeaderKeys);
  }

  const CarTelemetryPart2: Layout := CarTelemetryE + CarTelemetryF

  lemma CarTelemetryPart2Width()
    ensures Width(CarTelemetryPart2) == 16
  {
    CarTelemetryEWidth();
    CarTelemetryFWidth();
    WidthAppend(CarTelemetryE, CarTelemetryF);
  }

  lemma CarTelemetryPart2KeepsHeaderKeys()
    ensures Keeps(CarTelemetryPart2, HeaderKeys)
  {
    CarTelemetryEKeepsHeaderKeys();
    CarTelemetryFKeepsHeaderKeys();
    KeepsAppend(CarTelemetryE, CarTelemetryF, HeaderKeys);
  }

  const CarTelemetry: Layout := CarTelemetryPart1 + CarTelemetryPart2

  lemma CarTelemetryShape()
    ensures Width(CarTelemetry) == 60 && EndsStrict(CarTelemetry) && Keeps(CarTelemetry, HeaderKeys)
  {
    CarTelemetryPart1Width();
    CarTelemetryPart1KeepsHeaderKeys();
    CarTelemetryPart2Width();
    CarTelemetryPart2KeepsHeaderKeys();
    WidthAppend(CarTelemetryPart1, CarTelemetryPart2);
    KeepsAppend(CarTelemetryPart1, CarTelemetryPart2, HeaderKeys);
    assert EndsStrict(CarTelemetryF);
    EndsStrictAppend(CarTelemetryE, CarTelemetryF);
    EndsStrictAppend(CarTelemetryPart1, CarTelemetryPart2);
  }

  /** Lap data record, without minute bytes after the deltas: src/decoders/f1-2025.ts:848-896 */
  const LapDataA: Layout := [
    Field("lastLapTimeInMS", One(U32)),
    Field("currentLapTimeInMS", One(U32)),
    Field("sector1TimeInMS", One(U16)),
    Field("sector1TimeMinutes", One(U8)),
    Field("sector2TimeInMS", One(U16)),
    Field("sector2TimeMinutes", One(U8))
  ]

  const LapDataB: Layout := [
    Field("deltaToCarInFrontInMS", One(U16)),
    Field("deltaToRaceLeaderInMS", One(U16)),
    Field("lapDistance", One(F32)),
    Field("totalDistance", One(F32)),
    Field("safetyCarDelta", One(F32)),
    Field("carPosition", One(U8))
  ]

  const LapDataC: Layout := [
    Field("currentLapNum", One(U8)),
    Field("pitStatus", One(U8)),
    Field("numPitStops", One(U8)),
    Field("sector", One(U8)),
    Field("currentLapInvalid", One(U8)),
    Field("penalties", One(U8))
  ]

  const LapDataD: Layout := [
    Field("totalWarnings", One(U8)),
    Field("cornerCuttingWarnings", One(U8)),
    Field("numUnservedDriveThroughPens", One(U8)),
    Field("numUnservedStopGoPens", One(U8)),
    Field("gridPosition", One(U8)),
    Field("driverStatus", One(U8))
  ]

  const LapDataE: Layout := [
    Field("resultStatus", One(U8)),
    Field("pitLaneTimerActive", One(U8)),
    Field("pitLaneTimeInLaneInMS", One(U16)),
    Field("pitStopTimerInMS", One(U16)),
    Field("pitStopShouldServePen", One(U8)),
    Field("speedTrapFastestSpeed", One(F32))
  ]

  const LapDataF: Layout := [
    Field("speedTrapFastestLap", One(U8))
  ]

  lemma LapDataAWidth()
    ensures Width(LapDataA) == 14
  {
  }

  lemma LapDataAKeepsHeaderKeys()
    ensures Keeps(LapDataA, HeaderKeys)
  {
  }

  lemma LapDataBWidth()
    ensures Width(LapDataB) == 17
  {
  }

  lemma LapDataBKeepsHeaderKeys()
    ensures Keeps(LapDataB, HeaderKeys)
  {
  }

  lemma LapDataCWidth()
    ensures Width(LapDataC) == 6
  {
  }

  lemma LapDataCKeepsHeaderKeys()
    ensures Keeps(LapDataC, HeaderKeys)
  {
  }

  lemma LapDataDWidth()
    ensures Width(LapDataD) == 6
  {
  }

  lemma LapDataDKeepsHeaderKeys()
    ensures Keeps(LapDataD, HeaderKeys)
  {
  }

  lemma LapDataEWidth()
    ensures Width(LapDataE) == 11
  {
  }

  lemma LapDataEKeepsHeaderKeys()
    ensures Keeps(LapDataE, HeaderKeys)
  {
  }

  lemma LapDataFWidth()
    ensures Width(LapDataF) == 1
  {
  }

  lemma LapDataFKeepsHeaderKeys()
    ensures Keeps(LapDataF, HeaderKeys)
  {
  }

  const LapDataPart1: Layout := LapDataA + LapDataB + LapDataC + LapDataD

  lemma LapDataPart1Width()
    ensures Width(LapDataPart1) == 43
  {
    LapDataAWidth();
    LapDataBWidth();
    LapDataCWidth();
    LapDataDWidth();
    WidthAppend(LapDataA, LapDataB);
    WidthAppend(LapDataA + LapDataB, LapDataC);
    WidthAppend(LapDataA + LapDataB + LapDataC, LapDataD);
  }

  lemma LapDataPart1KeepsHeaderKeys()
    ensures Keeps(LapDataPart1, HeaderKeys)
  {
    LapDataAKeepsHeaderKeys();
    LapDataBKeepsHeaderKeys();
    LapDataCKeepsHeaderKeys();
    LapDataDKeepsHeaderKeys();
    KeepsAppend(LapDataA, LapDataB, HeaderKeys);
    KeepsAppend(LapDataA + LapDataB, LapDataC, HeaderKeys);
    KeepsAppend(LapDataA + LapDataB + LapDataC, LapDataD, HeaderKeys);
  }

  const LapDataPart2: Layout := LapDataE + LapDataF

  lemma LapDataPart2Width()
    ensures Width(LapDataPart2) == 12
  {
    LapDataEWidth();
    LapDataFWidth();
    WidthAppend(LapDataE, LapDataF);
  }

  lemma LapDataPart2KeepsHeaderKeys()
    ensures Keeps(LapDataPart2, HeaderKeys)
  {
    LapDataEKeepsHeaderKeys();
    LapDataFKeepsHeaderKeys();
    KeepsAppend(LapDataE, LapDataF, HeaderKeys);
  }

  const LapData: Layout := LapDataPart1 + LapDataPart2

  lemma LapDataShape()
    ensures Width(LapData) == 55 && EndsStrict(LapData) && Keeps(LapData, HeaderKeys)
  {
    LapDataPart1Width();
    LapDataPart1KeepsHeaderKeys();
    LapDataPart2Width();
    LapDataPart2KeepsHeaderKeys();
    WidthAppend(LapDataPart1, LapDataPart2);
    KeepsAppend(LapDataPart1, LapDataPart2, HeaderKeys);
    assert EndsStrict(LapDataF);
    EndsStrictAppend(LapDataE, LapDataF);
    EndsStrictAppend(LapDataPart1, LapDataPart2);
  }

  /** Car status record: src/decoders/f1-2025.ts:898-940 */
  const CarStatusA: Layout := [
    Field("tractionControl", One(U8)),
    Field("antiLockBrakes", One(U8)),
    Field("fuelMix", One(U8)),
    Field("frontBrakeBias", One(U8)),
    Field("pitLimiterStatus", One(U8)),
    Field("fuelInTank", One(F32))
  ]

  const CarStatusB: Layout := [
    Field("fuelCapacity", One(F32)),
    Field("fuelRemainingLaps", One(F32)),
    Field("maxRPM", One(U16)),
    Field("idleRPM", One(U16)),
    Field("maxGears", One(U8)),
    Field("drsAllowed", One(U8))
  ]

  const CarStatusC: Layout := [
    Field("drsActivationDistance", One(U16)),
    Field("actualTyreCompound", One(U8)),
    Field("visualTyreCompound", One(U8)),
    Field("tyresAgeLaps", One(U8)),
    Field("vehicleFiaFlags", One(I8)),
    Field("enginePowerICE", One(F32))
  ]

  const CarStatusD: Layout := [
    Field("enginePowerMGUK", One(F32)),
    Field("ersStoreEnergy", One(F32)),
    Field("ersDeployMode", One(U8)),
    Field("ersHarvestedThisLapMGUK", One(F32)),
    Field("ersHarvestedThisLapMGUH", One(F32)),
    Field("ersDeployedThisLap", One(F32))
  ]

  const CarStatusE: Layout := [
    Field("networkPaused", One(U8))
  ]

  lemma CarStatusAWidth()
    ensures Width(CarStatusA) == 9
  {
  }

  lemma CarStatusAKeepsHeaderKeys()
    ensures Keeps(CarStatusA, HeaderKeys)
  {
  }

  lemma CarStatusBWidth()
    ensures Width(CarStatusB) == 14
  {
  }

  lemma CarStatusBKeepsHeaderKeys()
    ensures Keeps(CarStatusB, HeaderKeys)
  {
  }

  lemma CarStatusCWidth()
    ensures Width(CarStatusC) == 10
  {
  }

  lemma CarStatusCKeepsHeaderKeys()
    ensures Keeps(CarStatusC, HeaderKeys)
  {
  }

  lemma CarStatusDWidth()
    ensures Width(CarStatusD) == 21
  {
  }

  lemma CarStatusDKeepsHeaderKeys()
    ensures Keeps(CarStatusD, HeaderKeys)
  {
  }

  lemma CarStatusEWidth()
    ensures Width(CarStatusE) == 1
  {
  }

  lemma CarStatusEKeepsHeaderKeys()
    ensures Keeps(CarStatusE, HeaderKeys)
  {
  }

  const CarStatusPart1: Layout := CarStatusA + CarStatusB + CarStatusC + CarStatusD

  lemma CarStatusPart1Width()
    ensures Width(CarStatusPart1) == 54
  {
    CarStatusAWidth();
    CarStatusBWidth();
    CarStatusCWidth();
    CarStatusDWidth();
    WidthAppend(CarStatusA, CarStatusB);
    WidthAppend(CarStatusA + CarStatusB, CarStatusC);
    WidthAppend(CarStatusA + CarStatusB + CarStatusC, CarStatusD);
  }

  lemma CarStatusPart1KeepsHeaderKeys()
    ensures Keeps(CarStatusPart1, HeaderKeys)
  {
    CarStatusAKeepsHeaderKeys();
    CarStatusBKeepsHeaderKeys();
    CarStatusCKeepsHeaderKeys();
    CarStatusDKeepsHeaderKeys();
    KeepsAppend(CarStatusA, CarStatusB, HeaderKeys);
    KeepsAppend(CarStatusA + CarStatusB, CarStatusC, HeaderKeys);
    KeepsAppend(CarStatusA + CarStatusB + CarStatusC, CarStatusD, HeaderKeys);
  }

  const CarStatusPart2: Layout := CarStatusE

  lemma CarStatusPart2Width()
    ensures Width(CarStatusPart2) == 1
  {
    CarStatusEWidth();
  }

  lemma CarStatusPart2KeepsHeaderKeys()
    ensures Keeps(CarStatusPart2, HeaderKeys)
  {
    CarStatusEKeepsHeaderKeys();
  }

  const CarStatus: Layout := CarStatusPart1 + CarStatusPart2

  lemma CarStatusShape()
    ensures Width(CarStatus) == 55 && EndsStrict(CarStatus) && Keeps(CarStatus, HeaderKeys)
  {
    CarStatusPart1Width();
    CarStatusPart1KeepsHeaderKeys();
    CarStatusPart2Width();
    CarStatusPart2KeepsHeaderKeys();
    WidthAppend(CarStatusPart1, CarStatusPart2);
    KeepsAppend(CarStatusPart1, CarStatusPart2, HeaderKeys);
    assert EndsStrict(CarStatusE);
    EndsStrictAppend(CarStatusPart1, CarStatusPart2);
  }

  /** Session body, its first 62 bytes: src/decoders/f1-2025.ts:942-1005 */
  const SessionA: Layout := [
    Field("weather", One(U8)),
    Field("trackTemperature", One(I8)),
    Field("airTemperature", One(I8)),
    Field("totalLaps", One(U8)),
    Field("trackLength", One(U16)),
    Field("sessionType", One(U8))
  ]

  const SessionB: Layout := [
    Field("trackId", One(I8)),
    Field("formula", One(U8)),
    Field("sessionTimeLeft", One(U16)),
    Field("sessionDuration", One(U16)),
    Field("pitSpeedLimit", One(U8)),
    Field("gamePaused", One(U8))
  ]

  const SessionC: Layout := [
    Field("isSpectating", One(U8)),
    Field("spectatorCarIndex", One(U8)),
    Field("sliProNativeSupport", One(U8)),
    Field("numMarshalZones", One(U8)),
    Field("safetyCarStatus", One(U8)),
    Field("networkGame", One(U8))
  ]

  const SessionD: Layout := [
    Field("numWeatherForecastSamples", One(U8)),
    Field("forecastAccuracy", One(U8)),
    Field("aiDifficulty", One(U8)),
    Field("seasonLinkIdentifier", One(U32)),
    Field("weekendLinkIdentifier", One(U32)),
    Field("sessionLinkIdentifier", One(U32))
  ]

  const SessionE: Layout := [
    Field("pitStopWindowIdealLap", One(U8)),
    Field("pitStopWindowLatestLap", One(U8)),
    Field("pitStopRejoinPosition", One(U8)),
    Field("steeringAssist", One(U8)),
    Field("brakingAssist", One(U8)),
    Field("gearboxAssist", One(U8))
  ]

  const SessionF: Layout := [
    Field("pitAssist", One(U8)),
    Field("pitReleaseAssist", One(U8)),
    Field("ERSAssist", One(U8)),
    Field("DRSAssist", One(U8)),
    Field("dynamicRacingLine", One(U8)),
    Field("dynamicRacingLineType", One(U8))
  ]

  const SessionG: Layout := [
    Field("gameMode", One(U8)),
    Field("ruleSet", One(U8)),
    Field("timeOfDay", One(U32)),
    Field("sessionLength", One(U8)),
    Field("speedUnitsLeadPlayer", One(U8)),
    Field("temperatureUnitsLeadPlayer", One(U8))
  ]

  const SessionH: Layout := [
    Field("speedUnitsSecondaryPlayer", One(U8)),
    Field("temperatureUnitsSecondaryPlayer", One(U8)),
    Field("numSafetyCarPeriods", One(U8)),
    Field("numVirtualSafetyCarPeriods", One(U8)),
    Field("numRedFlagPeriods", One(U8))
  ]

  lemma SessionAWidth()
    ensures Width(SessionA) == 7
  {
  }

  lemma SessionAKeepsHeaderKeys()
    ensures Keeps(SessionA, HeaderKeys)
  {
  }

  lemma SessionBWidth()
    ensures Width(SessionB) == 8
  {
  }

  lemma SessionBKeepsHeaderKeys()
    ensures Keeps(SessionB, HeaderKeys)
  {
  }

  lemma SessionCWidth()
    ensures Width(SessionC) == 6
  {
  }

  lemma SessionCKeepsHeaderKeys()
    ensures Keeps(SessionC, HeaderKeys)
  {
  }

  lemma SessionDWidth()
    ensures Width(SessionD) == 15
  {
  }

  lemma SessionDKeepsHeaderKeys()
    ensures Keeps(SessionD, HeaderKeys)
  {
  }

  lemma SessionEWidth()
    ensures Width(SessionE) == 6
  {
  }

  lemma SessionEKeepsHeaderKeys()
    ensures Keeps(SessionE, HeaderKeys)
  {
  }

  lemma SessionFWidth()
    ensures Width(SessionF) == 6
  {
  }

  lemma SessionFKeepsHeaderKeys()
    ensures Keeps(SessionF, HeaderKeys)
  {
  }

  lemma SessionGWidth()
    ensures Width(SessionG) == 9
  {
  }

  lemma SessionGKeepsHeaderKeys()
    ensures Keeps(SessionG, HeaderKeys)
  {
  }

  lemma SessionHWidth()
    ensures Width(SessionH) == 5
  {
  }

  lemma SessionHKeepsHeaderKeys()
    ensures Keeps(SessionH, HeaderKeys)
  {
  }

  const SessionPart1: Layout := SessionA + SessionB + SessionC + SessionD

  lemma SessionPart1Width()
    ensures Width(SessionPart1) == 36
  {
    SessionAWidth();
    SessionBWidth();
    SessionCWidth();
    SessionDWidth();
    WidthAppend(SessionA, SessionB);
    WidthAppend(SessionA + SessionB, SessionC);
    WidthAppend(SessionA + SessionB + SessionC, SessionD);
  }

  lemma SessionPart1KeepsHeaderKeys()
    ensures Keeps(SessionPart1, HeaderKeys)
  {
    SessionAKeepsHeaderKeys();
    SessionBKeepsHeaderKeys();
    SessionCKeepsHeaderKeys();
    SessionDKeepsHeaderKeys();
    KeepsAppend(SessionA, SessionB, HeaderKeys);
    KeepsAppend(SessionA + SessionB, SessionC, HeaderKeys);
    KeepsAppend(SessionA + SessionB + SessionC, SessionD, HeaderKeys);
  }

  const SessionPart2: Layout := SessionE + SessionF + SessionG + SessionH

  lemma SessionPart2Width()
    ensures Width(SessionPart2) == 26
  {
    SessionEWidth();
    SessionFWidth();
    SessionGWidth();
    SessionHWidth();
    WidthAppend(SessionE, SessionF);
    WidthAppend(SessionE + SessionF, SessionG);
    WidthAppend(SessionE + SessionF + SessionG, SessionH);
  }

  lemma SessionPart2KeepsHeaderKeys()
    ensures Keeps(SessionPart2, HeaderKeys)
  {
    SessionEKeepsHeaderKeys();
    SessionFKeepsHeaderKeys();
    SessionGKeepsHeaderKeys();
    SessionHKeepsHeaderKeys();
    KeepsAppend(SessionE, SessionF, HeaderKeys);
    KeepsAppend(SessionE + SessionF, SessionG, HeaderKeys);
    KeepsAppend(SessionE + SessionF + SessionG, SessionH, HeaderKeys);
  }

  const Session: Layout := SessionPart1 + SessionPart2

  lemma SessionShape()
    ensures Width(Session) == 62 && EndsStrict(Session) && Keeps(Session, HeaderKeys)
  {
    SessionPart1Width();
    SessionPart1KeepsHeaderKeys();
    SessionPart2Width();
    SessionPart2KeepsHeaderKeys();
    WidthAppend(SessionPart1, SessionPart2);
    KeepsAppend(SessionPart1, SessionPart2, HeaderKeys);
    assert EndsStrict(SessionH);
    EndsStrictAppend(SessionE + SessionF + SessionG, SessionH);
    EndsStrictAppend(SessionPart1, SessionPart2);
  }

  /** Participant record after the count byte: src/decoders/f1-2025.ts:1030-1094 */
  const ParticipantsLiveryColoursRow: seq<Col> := [Col("r", U8), Col("g", U8), Col("b", U8)]

  lemma ParticipantsLiveryColoursRowWidth()
    ensures RowWidth(ParticipantsLiveryColoursRow) == 3
  {
  }

  const ParticipantsA: Layout := [
    Field("aiControlled", One(U8)),
    Field("driverId", One(U8)),
    Field("networkId", One(U8)),
    Field("teamId", One(U8)),
    Field("myTeam", One(U8)),
    Field("raceNumber", One(U8))
  ]

  const ParticipantsB: Layout := [
    Field("nationality", One(U8)),
    Field("name", One(Latin1Trim(32))),
    Field("yourTelemetry", One(U8)),
    Field("showOnlineNames", One(U8)),
    Field("platform", One(U8)),
    Field("numColours", One(U8))
  ]

  const ParticipantsC: Layout := [
    Field("liveryColours", Table(4, ParticipantsLiveryColoursRow))
  ]

  lemma ParticipantsAWidth()
    ensures Width(ParticipantsA) == 6
  {
  }

  lemma ParticipantsAKeepsHeaderKeys()
    ensures Keeps(ParticipantsA, HeaderKeys)
  {
  }

  lemma ParticipantsBWidth()
    ensures Width(ParticipantsB) == 37
  {
  }

  lemma ParticipantsBKeepsHeaderKeys()
    ensures Keeps(ParticipantsB, HeaderKeys)
  {
  }

  lemma ParticipantsCWidth()
    ensures Width(ParticipantsC) == 12
  {
    ParticipantsLiveryColoursRowWidth();
  }

  lemma ParticipantsCKeepsHeaderKeys()
    ensures Keeps(ParticipantsC, HeaderKeys)
  {
  }

  const Participants: Layout := ParticipantsA + ParticipantsB + ParticipantsC

  lemma ParticipantsShape()
    ensures Width(Participants) == 55 && Keeps(Participants, HeaderKeys)
  {
    ParticipantsAWidth();
    ParticipantsAKeepsHeaderKeys();
    ParticipantsBWidth();
    ParticipantsBKeepsHeaderKeys();
    ParticipantsCWidth();
    ParticipantsCKeepsHeaderKeys();
    WidthAppend(ParticipantsA, ParticipantsB);
    KeepsAppend(ParticipantsA, ParticipantsB, HeaderKeys);
    WidthAppend(ParticipantsA + ParticipantsB, ParticipantsC);
    KeepsAppend(ParticipantsA + ParticipantsB, ParticipantsC, HeaderKeys);
  }

  /** Car setup record: src/decoders/f1-2025.ts:1096-1157 */
  const CarSetupsA: Layout := [
    Field("frontWing", One(U8)),
    Field("rearWing", One(U8)),
    Field("onThrottle", One(U8)),
    Field("offThrottle", One(U8)),
    Field("frontCamber", One(F32)),
    Field("rearCamber", One(F32))
  ]

  const CarSetupsB: Layout := [
    Field("frontToe", One(F32)),
    Field("rearToe", One(F32)),
    Field("frontSuspension", One(U8)),
    Field("rearSuspension", One(U8)),
    Field("frontAntiRollBar", One(U8)),
    Field("rearAntiRollBar", One(U8))
  ]

  const CarSetupsC: Layout := [
    Field("frontSuspensionHeight", One(U8)),
    Field("rearSuspensionHeight", One(U8)),
    Field("brakePressure", One(U8)),
    Field("brakeBalance", One(U8)),
    Field("rearLeftTyrePressure", One(F32)),
    Field("rearRightTyrePressure", One(F32))
  ]

  const CarSetupsD: Layout := [
    Field("frontLeftTyrePressure", One(F32)),
    Field("frontRightTyrePressure", One(F32)),
    Field("ballast", One(U8)),
    Field("fuelLoad", One(F32))
  ]

  lemma CarSetupsAWidth()
    ensures Width(CarSetupsA) == 12
  {
  }

  lemma CarSetupsAKeepsHeaderKeys()
    ensures Keeps(CarSetupsA, HeaderKeys)
  {
  }

  lemma CarSetupsBWidth()
    ensures Width(CarSetupsB) == 12
  {
  }

  lemma CarSetupsBKeepsHeaderKeys()
    ensures Keeps(CarSetupsB, HeaderKeys)
  {
  }

  lemma CarSetupsCWidth()
    ensures Width(CarSetupsC) == 12
  {
  }

  lemma CarSetupsCKeepsHeaderKeys()
    ensures Keeps(CarSetupsC, HeaderKeys)
  {
  }

  lemma CarSetupsDWidth()
    ensures Width(CarSetupsD) == 13
  {
  }

  lemma CarSetupsDKeepsHeaderKeys()
    ensures Keeps(CarSetupsD, HeaderKeys)
  {
  }

  const CarSetups: Layout := CarSetupsA + CarSetupsB + CarSetupsC + CarSetupsD

  lemma CarSetupsShape()
    ensures Width(CarSetups) == 49 && EndsStrict(CarSetups) && Keeps(CarSetups, HeaderKeys)
  {
    CarSetupsAWidth();
    CarSetupsAKeepsHeaderKeys();
    CarSetupsBWidth();
    CarSetupsBKeepsHeaderKeys();
    CarSetupsCWidth();
    CarSetupsCKeepsHeaderKeys();
    CarSetupsDWidth();
    CarSetupsDKeepsHeaderKeys();
    WidthAppend(CarSetupsA, CarSetupsB);
    KeepsAppend(CarSetupsA, CarSetupsB, HeaderKeys);
    WidthAppend(CarSetupsA + CarSetupsB, CarSetupsC);
    KeepsAppend(CarSetupsA + CarSetupsB, CarSetupsC, HeaderKeys);
    WidthAppend(CarSetupsA + CarSetupsB + CarSetupsC, CarSetupsD);
    KeepsAppend(CarSetupsA + CarSetupsB + CarSetupsC, CarSetupsD, HeaderKeys);
    assert EndsStrict(CarSetupsD);
    EndsStrictAppend(CarSetupsA + CarSetupsB + CarSetupsC, CarSetupsD);
  }

  /** Final classification record after the count byte: src/decoders/f1-2025.ts:1159-1236 */
  const FinalClassificationA: Layout := [
    Field("position", One(U8)),
    Field("numLaps", One(U8)),
    Field("gridPosition", One(U8)),
    Field("points", One(U8)),
    Field("numPitStops", One(U8)),
    Field("resultStatus", One(U8))
  ]

  const FinalClassificationB: Layout := [
    Field("bestLapTimeInMS", One(U32)),
    Field("totalRaceTime", One(F64)),
    Field("penaltiesTime", One(U8)),
    Field("numPenalties", One(U8)),
    Field("numTyreStints", One(U8)),
    Field("tyreStintsActual", Many(8, U8))
  ]

  const FinalClassificationC: Layout := [
    Field("tyreStintsVisual", Many(8, U8)),
    Field("tyreStintsEndLaps", Many(8, U8)),
    Field("resultReason", One(U8))
  ]

  lemma FinalClassificationAWidth()
    ensures Width(FinalClassificationA) == 6
  {
  }

  lemma FinalClassificationAKeepsHeaderKeys()
    ensures Keeps(FinalClassificationA, HeaderKeys)
  {
  }

  lemma FinalClassificationBWidth()
    ensures Width(FinalClassificationB) == 23
  {
  }

  lemma FinalClassificationBKeepsHeaderKeys()
    ensures Keeps(FinalClassificationB, HeaderKeys)
  {
  }

  lemma FinalClassificationCWidth()
    ensures Width(FinalClassificationC) == 17
  {
  }

  lemma FinalClassificationCKeepsHeaderKeys()
    ensures Keeps(FinalClassificationC, HeaderKeys)
  {
  }

  const FinalClassification: Layout := FinalClassificationA + FinalClassificationB + FinalClassificationC

  lemma FinalClassificationShape()
    ensures Width(FinalClassification) == 46 && EndsStrict(FinalClassification) && Keeps(FinalClassification, HeaderKeys)
  {
    FinalClassificationAWidth();
    FinalClassificationAKeepsHeaderKeys();
    FinalClassificationBWidth();
    FinalClassificationBKeepsHeaderKeys();
    FinalClassificationCWidth();
    FinalClassificationCKeepsHeaderKeys();
    WidthAppend(FinalClassificationA, FinalClassificationB);
    KeepsAppend(FinalClassificationA, FinalClassificationB, HeaderKeys);
    WidthAppend(FinalClassificationA + FinalClassificationB, FinalClassificationC);
    KeepsAppend(FinalClassificationA + FinalClassificationB, FinalClassificationC, HeaderKeys);
    assert EndsStrict(FinalClassificationC);
    EndsStrictAppend(FinalClassificationA + FinalClassificationB, FinalClassificationC);
  }

  /** Lobby player record after the count byte: src/decoders/f1-2025.ts:1238-1280 */
  const LobbyInfoA: Layout := [
    Field("aiControlled", One(U8)),
    Field("teamId", One(U8)),
    Field("nationality", One(U8)),
    Field("platform", One(U8)),
    Field("name", One(Latin1Trim(32))),
    Field("carNumber", One(U8))
  ]

  const LobbyInfoB: Layout := [
    Field("readyStatus", One(U8))
  ]

  lemma LobbyInfoAWidth()
    ensures Width(LobbyInfoA) == 37
  {
  }

  lemma LobbyInfoAKeepsHeaderKeys()
    ensures Keeps(LobbyInfoA, HeaderKeys)
  {
  }

  lemma LobbyInfoBWidth()
    ensures Width(LobbyInfoB) == 1
  {
  }

  lemma LobbyInfoBKeepsHeaderKeys()
    ensures Keeps(LobbyInfoB, HeaderKeys)
  {
  }

  const LobbyInfo: Layout := LobbyInfoA + LobbyInfoB

  lemma LobbyInfoShape()
    ensures Width(LobbyInfo) == 38 && EndsStrict(LobbyInfo) && Keeps(LobbyInfo, HeaderKeys)
  {
    LobbyInfoAWidth();
    LobbyInfoAKeepsHeaderKeys();
    LobbyInfoBWidth();
    LobbyInfoBKeepsHeaderKeys();
    WidthAppend(LobbyInfoA, LobbyInfoB);
    KeepsAppend(LobbyInfoA, LobbyInfoB, HeaderKeys);
    assert EndsStrict(LobbyInfoB);
    EndsStrictAppend(LobbyInfoA, LobbyInfoB);
  }

  /** Car damage record: src/decoders/f1-2025.ts:1282-1367 */
  const CarDamageA: Layout := [
    Field("tyresWear", Many(4, F32)),
    Field("tyresDamage", Many(4, U8)),
    Field("brakesDamage", Many(4, U8)),
    Field("frontLeftWingDamage", One(U8)),
    Field("frontRightWingDamage", One(U8)),
    Field("rearWingDamage", One(U8))
  ]

  const CarDamageB: Layout := [
    Field("floorDamage", One(U8)),
    Field("diffuserDamage", One(U8)),
    Field("sidepodDamage", One(U8)),
    Field("drsFault", One(U8)),
    Field("ersFault", One(U8)),
    Field("gearBoxDamage", One(U8))
  ]

  const CarDamageC: Layout := [
    Field("engineDamage", One(U8)),
    Field("engineMGUHWear", One(U8)),
    Field("engineESWear", One(U8)),
    Field("engineCEWear", One(U8)),
    Field("engineICEWear", One(U8)),
    Field("engineMGUKWear", One(U8))
  ]

  const CarDamageD: Layout := [
    Field("engineTCWear", One(U8)),
    Field("engineBlown", One(U8)),
    Field("engineSeized", One(U8)),
    Field("tyreBlisters", Many(4, U8))
  ]

  lemma CarDamageAWidth()
    ensures Width(CarDamageA) == 27
  {
  }

  lemma CarDamageAKeepsHeaderKeys()
    ensures Keeps(CarDamageA, HeaderKeys)
  {
  }

  lemma CarDamageBWidth()
    ensures Width(CarDamageB) == 6
  {
  }

  lemma CarDamageBKeepsHeaderKeys()
    ensures Keeps(CarDamageB, HeaderKeys)
  {
  }

  lemma CarDamageCWidth()
    ensures Width(CarDamageC) == 6
  {
  }

  lemma CarDamageCKeepsHeaderKeys()
    ensures Keeps(CarDamageC, HeaderKeys)
  {
  }

  lemma CarDamageDWidth()
    ensures Width(CarDamageD) == 7
  {
  }

  lemma CarDamageDKeepsHeaderKeys()
    ensures Keeps(CarDamageD, HeaderKeys)
  {
  }

  const CarDamage: Layout := CarDamageA + CarDamageB + CarDamageC + CarDamageD

  lemma CarDamageShape()
    ensures Width(CarDamage) == 46 && EndsStrict(CarDamage) && Keeps(CarDamage, HeaderKeys)
  {
    CarDamageAWidth();
    CarDamageAKeepsHeaderKeys();
    CarDamageBWidth();
    CarDamageBKeepsHeaderKeys();
    CarDamageCWidth();
    CarDamageCKeepsHeaderKeys();
    CarDamageDWidth();
    CarDamageDKeepsHeaderKeys();
    WidthAppend(CarDamageA, CarDamageB);
    KeepsAppend(CarDamageA, CarDamageB, HeaderKeys);
    WidthAppend(CarDamageA + CarDamageB, CarDamageC);
    KeepsAppend(CarDamageA + CarDamageB, CarDamageC, HeaderKeys);
    WidthAppend(CarDamageA + CarDamageB + CarDamageC, CarDamageD);
    KeepsAppend(CarDamageA + CarDamageB + CarDamageC, CarDamageD, HeaderKeys);
    assert EndsStrict(CarDamageD);
    EndsStrictAppend(CarDamageA + CarDamageB + CarDamageC, CarDamageD);
  }

  /** Session history body before its eight bounded arrays: src/decoders/f1-2025.ts:1369-1393 */
  const SessionHistoryHeadA: Layout := [
    Field("carIdx", One(U8)),
    Field("numLaps", One(U8)),
    Field("numTyreStints", One(U8)),
    Field("bestLapTimeLapNum", One(U8)),
    Field("bestSector1LapNum", One(U8)),
    Field("bestSector2LapNum", One(U8))
  ]

  const SessionHistoryHeadB: Layout := [
    Field("bestSector3LapNum", One(U8))
  ]

  lemma SessionHistoryHeadAWidth()
    ensures Width(SessionHistoryHeadA) == 6
  {
  }

  lemma SessionHistoryHeadAKeepsHeaderKeys()
    ensures Keeps(SessionHistoryHeadA, HeaderKeys)
  {
  }

  lemma SessionHistoryHeadBWidth()
    ensures Width(SessionHistoryHeadB) == 1
  {
  }

  lemma SessionHistoryHeadBKeepsHeaderKeys()
    ensures Keeps(SessionHistoryHeadB, HeaderKeys)
  {
  }

  const SessionHistoryHead: Layout := SessionHistoryHeadA + SessionHistoryHeadB

  lemma SessionHistoryHeadShape()
    ensures Width(SessionHistoryHead) == 7 && EndsStrict(SessionHistoryHead) && Keeps(SessionHistoryHead, HeaderKeys)
  {
    SessionHistoryHeadAWidth();
    SessionHistoryHeadAKeepsHeaderKeys();
    SessionHistoryHeadBWidth();
    SessionHistoryHeadBKeepsHeaderKeys();
    WidthAppend(SessionHistoryHeadA, SessionHistoryHeadB);
    KeepsAppend(SessionHistoryHeadA, SessionHistoryHeadB, HeaderKeys);
    assert EndsStrict(SessionHistoryHeadB);
    EndsStrictAppend(SessionHistoryHeadA, SessionHistoryHeadB);
  }

  /** Extended motion record of the player: src/decoders/f1-2025.ts:1479-1592 */
  const MotionExA: Layout := [
    Field("suspensionPositionRL", One(F32)),
    Field("suspensionPositionRR", One(F32)),
    Field("suspensionPositionFL", One(F32)),
    Field("suspensionPositionFR", One(F32)),
    Field("suspensionVelocityRL", One(F32)),
    Field("suspensionVelocityRR", One(F32))
  ]

  const MotionExB: Layout := [
    Field("suspensionVelocityFL", One(F32)),
    Field("suspensionVelocityFR", One(F32)),
    Field("suspensionAccelerationRL", One(F32)),
    Field("suspensionAccelerationRR", One(F32)),
    Field("suspensionAccelerationFL", One(F32)),
    Field("suspensionAccelerationFR", One(F32))
  ]

  const MotionExC: Layout := [
    Field("wheelSpeedRL", One(F32)),
    Field("wheelSpeedRR", One(F32)),
    Field("wheelSpeedFL", One(F32)),
    Field("wheelSpeedFR", One(F32)),
    Field("wheelSlipRatioRL", One(F32)),
    Field("wheelSlipRatioRR", One(F32))
  ]

  const MotionExD: Layout := [
    Field("wheelSlipRatioFL", One(F32)),
    Field("wheelSlipRatioFR", One(F32)),
    Field("wheelSlipAngleRL", One(F32)),
    Field("wheelSlipAngleRR", One(F32)),
    Field("wheelSlipAngleFL", One(F32)),
    Field("wheelSlipAngleFR", One(F32))
  ]

  const MotionExE: Layout := [
    Field("localVelocityX", One(F32)),
    Field("localVelocityY", One(F32)),
    Field("localVelocityZ", One(F32)),
    Field("angularVelocityX", One(F32)),
    Field("angularVelocityY", One(F32)),
    Field("angularVelocityZ", One(F32))
  ]

  const MotionExF: Layout := [
    Field("angularAccelerationX", One(F32)),
    Field("angularAccelerationY", One(F32)),
    Field("angularAccelerationZ", One(F32)),
    Field("frontWheelsAngle", One(F32)),
    Field("wheelVertForceRL", One(F32)),
    Field("wheelVertForceRR", One(F32))
  ]

  const MotionExG: Layout := [
    Field("wheelVertForceFL", One(F32)),
    Field("wheelVertForceFR", One(F32)),
    Field("chassisPitch", One(F32)),
    Field("wheelCamberRL", One(F32)),
    Field("wheelCamberRR", One(F32)),
    Field("wheelCamberFL", One(F32))
  ]

  const MotionExH: Layout := [
    Field("wheelCamberFR", One(F32)),
    Field("wheelCamberGainRL", One(F32)),
    Field("wheelCamberGainRR", One(F32)),
    Field("wheelCamberGainFL", One(F32)),
    Field("wheelCamberGainFR", One(F32))
  ]

  lemma MotionExAWidth()
    ensures Width(MotionExA) == 24
  {
  }

  lemma MotionExAKeepsHeaderKeys()
    ensures Keeps(MotionExA, HeaderKeys)
  {
  }

  lemma MotionExBWidth()
    ensures Width(MotionExB) == 24
  {
  }

  lemma MotionExBKeepsHeaderKeys()
    ensures Keeps(MotionExB, HeaderKeys)
  {
  }

  lemma MotionExCWidth()
    ensures Width(MotionExC) == 24
  {
  }

  lemma MotionExCKeepsHeaderKeys()
    ensures Keeps(MotionExC, HeaderKeys)
  {
  }

  lemma MotionExDWidth()
    ensures Width(MotionExD) == 24
  {
  }

  lemma MotionExDKeepsHeaderKeys()
    ensures Keeps(MotionExD, HeaderKeys)
  {
  }

  lemma MotionExEWidth()
    ensures Width(MotionExE) == 24
  {
  }

  lemma MotionExEKeepsHeaderKeys()
    ensures Keeps(MotionExE, HeaderKeys)
  {
  }

  lemma MotionExFWidth()
    ensures Width(MotionExF) == 24
  {
  }

  lemma MotionExFKeepsHeaderKeys()
    ensures Keeps(MotionExF, HeaderKeys)
  {
  }

  lemma MotionExGWidth()
    ensures Width(MotionExG) == 24
  {
  }

  lemma MotionExGKeepsHeaderKeys()
    ensures Keeps(MotionExG, HeaderKeys)
  {
  }

  lemma MotionExHWidth()
    ensures Width(MotionExH) == 20
  {
  }

  lemma MotionExHKeepsHeaderKeys()
    ensures Keeps(MotionExH, HeaderKeys)
  {
  }

  const MotionExPart1: Layout := MotionExA + MotionExB + MotionExC + MotionExD

  lemma MotionExPart1Width()
    ensures Width(MotionExPart1) == 96
  {
    MotionExAWidth();
    MotionExBWidth();
    MotionExCWidth();
    MotionExDWidth();
    WidthAppend(MotionExA, MotionExB);
    WidthAppend(MotionExA + MotionExB, MotionExC);
    WidthAppend(MotionExA + MotionExB + MotionExC, MotionExD);
  }

  lemma MotionExPart1KeepsHeaderKeys()
    ensures Keeps(MotionExPart1, HeaderKeys)
  {
    MotionExAKeepsHeaderKeys();
    MotionExBKeepsHeaderKeys();
    MotionExCKeepsHeaderKeys();
    MotionExDKeepsHeaderKeys();
    KeepsAppend(MotionExA, MotionExB, HeaderKeys);
    KeepsAppend(MotionExA + MotionExB, MotionExC, HeaderKeys);
    KeepsAppend(MotionExA + MotionExB + MotionExC, MotionExD, HeaderKeys);
  }

  const MotionExPart2: Layout := MotionExE + MotionExF + MotionExG + MotionExH

  lemma MotionExPart2Width()
    ensures Width(MotionExPart2) == 92
  {
    MotionExEWidth();
    MotionExFWidth();
    MotionExGWidth();
    MotionExHWidth();
    WidthAppend(MotionExE, MotionExF);
    WidthAppend(MotionExE + MotionExF, MotionExG);
    WidthAppend(MotionExE + MotionExF + MotionExG, MotionExH);
  }

  lemma MotionExPart2KeepsHeaderKeys()
    ensures Keeps(MotionExPart2, HeaderKeys)
  {
    MotionExEKeepsHeaderKeys();
    MotionExFKeepsHeaderKeys();
    MotionExGKeepsHeaderKeys();
    MotionExHKeepsHeaderKeys();
    KeepsAppend(MotionExE, MotionExF, HeaderKeys);
    KeepsAppend(MotionExE + MotionExF, MotionExG, HeaderKeys);
    KeepsAppend(MotionExE + MotionExF + MotionExG, MotionExH, HeaderKeys);
  }

  const MotionEx: Layout := MotionExPart1 + MotionExPart2

  lemma MotionExShape()
    ensures Width(MotionEx) == 188 && EndsStrict(MotionEx) && Keeps(MotionEx, HeaderKeys)
  {
    MotionExPart1Width();
    MotionExPart1KeepsHeaderKeys();
    MotionExPart2Width();
    MotionExPart2KeepsHeaderKeys();
    WidthAppend(MotionExPart1, MotionExPart2);
    KeepsAppend(MotionExPart1, MotionExPart2, HeaderKeys);
    assert EndsStrict(MotionExH);
    EndsStrictAppend(MotionExE + MotionExF + MotionExG, MotionExH);
    EndsStrictAppend(MotionExPart1, MotionExPart2);
  }

  /** Time trial body: src/decoders/f1-2025.ts:1594-1633 */
  const TimeTrialA: Layout := [
    Field("carIdx", One(U8)),
    Field("teamId", One(U8)),
    Field("lapTimeInMS", One(U32)),
    Field("sector1TimeInMS", One(U32)),
    Field("sector2TimeInMS", One(U32)),
    Field("sector3TimeInMS", One(U32))
  ]

  const TimeTrialB: Layout := [
    Field("tractionControl", One(U8)),
    Field("gearboxAssist", One(U8)),
    Field("antiLockBrakes", One(U8)),
    Field("equalCarPerformance", One(U8)),
    Field("customSetup", One(U8)),
    Field("valid", One(U8))
  ]

  lemma TimeTrialAWidth()
    ensures Width(TimeTrialA) == 18
  {
  }

  lemma TimeTrialAKeepsHeaderKeys()
    ensures Keeps(TimeTrialA, HeaderKeys)
  {
  }

  lemma TimeTrialBWidth()
    ensures Width(TimeTrialB) == 6
  {
  }

  lemma TimeTrialBKeepsHeaderKeys()
    ensures Keeps(TimeTrialB, HeaderKeys)
  {
  }

  const TimeTrial: Layout := TimeTrialA + TimeTrialB

  lemma TimeTrialShape()
    ensures Width(TimeTrial) == 24 && EndsStrict(TimeTrial) && Keeps(TimeTrial, HeaderKeys)
  {
    TimeTrialAWidth();
    TimeTrialAKeepsHeaderKeys();
    TimeTrialBWidth();
    TimeTrialBKeepsHeaderKeys();
    WidthAppend(TimeTrialA, TimeTrialB);
    KeepsAppend(TimeTrialA, TimeTrialB, HeaderKeys);
    assert EndsStrict(TimeTrialB);
    EndsStrictAppend(TimeTrialA, TimeTrialB);
  }

  /** Event body: the four-character code, and empty details: src/decoders/f1-2025.ts:1007-1028 */
  const EventA: Layout := [
    Field("eventStringCode", One(Latin1(4))),
    Field("eventDetails", Const(Obj(map[])))
  ]

  lemma EventAWidth()
    ensures Width(EventA) == 4
  {
  }

  lemma EventAKeepsHeaderKeys()
    ensures Keeps(EventA, HeaderKeys)
  {
  }

  const Event: Layout := EventA

  lemma EventShape()
    ensures Width(Event) == 4 && Keeps(Event, HeaderKeys)
  {
    EventAWidth();
    EventAKeepsHeaderKeys();
  }

  /** Tyre sets body: the car index, and an empty list of sets: src/decoders/f1-2025.ts:1459-1477 */
  const TyreSetsA: Layout := [
    Field("carIdx", One(U8)),
    Field("tyreSetData", Const(List([])))
  ]

  lemma TyreSetsAWidth()
    ensures Width(TyreSetsA) == 1
  {
  }

  lemma TyreSetsAKeepsHeaderKeys()
    ensures Keeps(TyreSetsA, HeaderKeys)
  {
  }

  const TyreSets: Layout := TyreSetsA

  lemma TyreSetsShape()
    ensures Width(TyreSets) == 1 && Keeps(TyreSets, HeaderKeys)
  {
    TyreSetsAWidth();
    TyreSetsAKeepsHeaderKeys();
  }

  /** Lap positions body before the position rows: src/decoders/f1-2025.ts:1635-1645 */
  const LapPositionsHeadA: Layout := [
    Field("numLaps", One(U8)),
    Field("lapStart", One(U8))
  ]

  lemma LapPositionsHeadAWidth()
    ensures Width(LapPositionsHeadA) == 2
  {
  }

  lemma LapPositionsHeadAKeepsHeaderKeys()
    ensures Keeps(LapPositionsHeadA, HeaderKeys)
  {
  }

  const LapPositionsHead: Layout := LapPositionsHeadA

  lemma LapPositionsHeadShape()
    ensures Width(LapPositionsHead) == 2 && EndsStrict(LapPositionsHead) && Keeps(LapPositionsHead, HeaderKeys)
  {
    LapPositionsHeadAWidth();
    LapPositionsHeadAKeepsHeaderKeys();
    assert EndsStrict(LapPositionsHeadA);
  }
}
