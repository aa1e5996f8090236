/** The record layouts, command codes and constants of include/Ladybug_Hydro.h,
    each C struct as a datatype with its byte image (little-endian, packed in
    declaration order, as the 32-bit target lays the structs out). */
module HydroLayout {
  import opened Basics
  import FlashLayout

  /** control_enum_t: the command byte the client writes to the control
      characteristic. The client holds the same enumeration. */
  datatype ControlCommand =
    | ResetPHCalValues
    | ResetECCalValues
    | CalibratePH4
    | CalibratePH7
    | UpdatePHAndEC
    | CalibrateEC1
    | CalibrateEC2
    | UndoPH4
    | UndoPH7
    | UndoEC1
    | UndoEC2
    | UpdateBatteryLevel
    | UpdateDeviceName

  /** The enumerator value of each command: 0 to 12 in declaration order. */
  function CommandCode(c: ControlCommand): (n: nat)
    ensures n <= 12
  {
    match c
    case ResetPHCalValues => 0
    case ResetECCalValues => 1
    case CalibratePH4 => 2
    case CalibratePH7 => 3
    case UpdatePHAndEC => 4
    case CalibrateEC1 => 5
    case CalibrateEC2 => 6
    case UndoPH4 => 7
    case UndoPH7 => 8
    case UndoEC1 => 9
    case UndoEC2 => 10
    case UpdateBatteryLevel => 11
    case UpdateDeviceName => 12
  }

  /** The command a received code denotes; codes above 12 denote none. */
  function CommandOfCode(n: int): (r: Option<ControlCommand>)
    ensures r.Some? <==> 0 <= n <= 12
    ensures r.Some? ==> CommandCode(r.value) == n
  {
    if n == 0 then Some(ResetPHCalValues)
    else if n == 1 then Some(ResetECCalValues)
    else if n == 2 then Some(CalibratePH4)
    else if n == 3 then Some(CalibratePH7)
    else if n == 4 then Some(UpdatePHAndEC)
    else if n == 5 then Some(CalibrateEC1)
    else if n == 6 then Some(CalibrateEC2)
    else if n == 7 then Some(UndoPH4)
    else if n == 8 then Some(UndoPH7)
    else if n == 9 then Some(UndoEC1)
    else if n == 10 then Some(UndoEC2)
    else if n == 11 then Some(UpdateBatteryLevel)
    else if n == 12 then Some(UpdateDeviceName)
    else None
  }

  lemma CommandCodeRoundTrip(c: ControlCommand)
    ensures CommandOfCode(CommandCode(c)) == Some(c)
  {
  }

  /** Distinct commands travel as distinct codes. */
  lemma {:induction false} CommandCodeInjective(a: ControlCommand, b: ControlCommand)
    requires CommandCode(a) == CommandCode(b)
    ensures a == b
  {
    CommandCodeRoundTrip(a);
    CommandCodeRoundTrip(b);
  }

  /** The sentinel that marks a record as written by this firmware. */
  const WRITE_CHECK: u32 := 0x01020304

  /** BLE_GAP_DEVNAME_MAX_LEN of the vendor's BLE stack (31 bytes). */
  const BLE_GAP_DEVNAME_MAX_LEN: nat := 31

  /** The longest device name: the GAP limit less the advertising data offset (2),
      the advertising flags (3) and one 16-bit service UUID (sizeof(uint16_le_t)). */
  const DEVNAME_MAX_LEN: nat := BLE_GAP_DEVNAME_MAX_LEN - 2 - 3 - 2

  /** "LBL", the name used when none has been stored. */
  const DEFAULT_DEVICE_NAME: seq<byte> := [0x4C, 0x42, 0x4C]

  lemma DeviceNameBounds()
    ensures DEVNAME_MAX_LEN == 24
    ensures |DEFAULT_DEVICE_NAME| < DEVNAME_MAX_LEN
  {
  }

  /** Two uint16_t values (an EC (Vin, Vout) pair as stored). */
  type Pair = s: seq<u16> | |s| == 2 witness [0, 0]

  /** Two int16_t values (an EC (Vin, Vout) pair as read). */
  type I16Pair = s: seq<i16> | |s| == 2 witness [0, 0]

  /** calibrationValues_t. */
  datatype CalibrationValues = CalibrationValues(
    pH4mV: i16,
    pH7mV: i16,
    ec1Solution: u16,
    ec2Solution: u16,
    ec1mV: Pair,
    ec2mV: Pair)

  const CALIBRATION_VALUES_SIZE: nat := 16

  function SerializeCalibrationValues(c: CalibrationValues): (r: seq<byte>)
    ensures |r| == CALIBRATION_VALUES_SIZE
  {
    EncodeI16(c.pH4mV) + EncodeI16(c.pH7mV)
    + EncodeU16(c.ec1Solution) + EncodeU16(c.ec2Solution)
    + EncodeU16(c.ec1mV[0]) + EncodeU16(c.ec1mV[1])
    + EncodeU16(c.ec2mV[0]) + EncodeU16(c.ec2mV[1])
  }

  function DeserializeCalibrationValues(s: seq<byte>): (c: CalibrationValues)
    requires |s| == CALIBRATION_VALUES_SIZE
  {
    CalibrationValues(
      DecodeI16(s[0], s[1]), DecodeI16(s[2], s[3]),
      DecodeU16(s[4], s[5]), DecodeU16(s[6], s[7]),
      [DecodeU16(s[8], s[9]), DecodeU16(s[10], s[11])],
      [DecodeU16(s[12], s[13]), DecodeU16(s[14], s[15])])
  }

  /** Field order and offsets of calibrationValues_t: pH4, pH7 (int16), the two
      solution values (uint16), then EC1_mV[2] and EC2_mV[2] (uint16). */
  lemma {:induction false} CalibrationValuesLayout(c: CalibrationValues)
    ensures var s := SerializeCalibrationValues(c);
      && DecodeI16(s[0], s[1]) == c.pH4mV
      && DecodeI16(s[2], s[3]) == c.pH7mV
      && DecodeU16(s[4], s[5]) == c.ec1Solution
      && DecodeU16(s[6], s[7]) == c.ec2Solution
      && DecodeU16(s[8], s[9]) == c.ec1mV[0]
      && DecodeU16(s[10], s[11]) == c.ec1mV[1]
      && DecodeU16(s[12], s[13]) == c.ec2mV[0]
      && DecodeU16(s[14], s[15]) == c.ec2mV[1]
  {
    I16RoundTrip(c.pH4mV);
    I16RoundTrip(c.pH7mV);
    U16RoundTrip(c.ec1Solution);
    U16RoundTrip(c.ec2Solution);
    U16RoundTrip(c.ec1mV[0]);
    U16RoundTrip(c.ec1mV[1]);
    U16RoundTrip(c.ec2mV[0]);
    U16RoundTrip(c.ec2mV[1]);
  }

  lemma {:induction false} CalibrationValuesRoundTrip(c: CalibrationValues)
    ensures DeserializeCalibrationValues(SerializeCalibrationValues(c)) == c
  {
    CalibrationValuesLayout(c);
  }

  lemma {:induction false} CalibrationValuesBytesRoundTrip(s: seq<byte>)
    requires |s| == CALIBRATION_VALUES_SIZE
    ensures SerializeCalibrationValues(DeserializeCalibrationValues(s)) == s
  {
    I16BytesRoundTrip(s[0], s[1]);
    I16BytesRoundTrip(s[2], s[3]);
    assert s == [s[0], s[1]] + [s[2], s[3]] + [s[4], s[5]] + [s[6], s[7]]
      + [s[8], s[9]] + [s[10], s[11]] + [s[12], s[13]] + [s[14], s[15]];
  }

  /** storeCalibrationValues_t: the sentinel, then the calibration values. */
  datatype StoreCalibrationValues = StoreCalibrationValues(writeCheck: u32, calValues: CalibrationValues)

  const STORE_CALIBRATION_VALUES_SIZE: nat := 20

  function SerializeStoreCalibrationValues(r: StoreCalibrationValues): (s: seq<byte>)
    ensures |s| == STORE_CALIBRATION_VALUES_SIZE
  {
    EncodeU32(r.writeCheck) + SerializeCalibrationValues(r.calValues)
  }

  function DeserializeStoreCalibrationValues(s: seq<byte>): (r: StoreCalibrationValues)
    requires |s| == STORE_CALIBRATION_VALUES_SIZE
  {
    StoreCalibrationValues(DecodeU32(s[..4]), DeserializeCalibrationValues(s[4..]))
  }

  lemma {:induction false} StoreCalibrationValuesRoundTrip(r: StoreCalibrationValues)
    ensures DeserializeStoreCalibrationValues(SerializeStoreCalibrationValues(r)) == r
  {
    var s := SerializeStoreCalibrationValues(r);
    assert s[..4] == EncodeU32(r.writeCheck);
    assert s[4..] == SerializeCalibrationValues(r.calValues);
    U32RoundTrip(r.writeCheck);
    CalibrationValuesRoundTrip(r.calValues);
  }

  lemma {:induction false} StoreCalibrationValuesBytesRoundTrip(s: seq<byte>)
    requires |s| == STORE_CALIBRATION_VALUES_SIZE
    ensures SerializeStoreCalibrationValues(DeserializeStoreCalibrationValues(s)) == s
  {
    U32BytesRoundTrip(s[..4]);
    CalibrationValuesBytesRoundTrip(s[4..]);
    assert s == s[..4] + s[4..];
  }

  /** The sentinel occupies the first four bytes of a stored record, low byte first. */
  lemma {:induction false} SentinelBytes(r: StoreCalibrationValues)
    requires r.writeCheck == WRITE_CHECK
    ensures SerializeStoreCalibrationValues(r)[..4] == [0x04, 0x03, 0x02, 0x01]
  {
    var s := SerializeStoreCalibrationValues(r);
    assert s[..4] == EncodeU32(WRITE_CHECK);
  }

  const PLANT_TYPE_SIZE: nat := 20
  const PLANT_STAGE_SIZE: nat := 8
  const PLANT_INFO_SIZE: nat := 28

  type PlantType = s: seq<byte> | |s| == PLANT_TYPE_SIZE witness Fill(0, PLANT_TYPE_SIZE)
  type PlantStage = s: seq<byte> | |s| == PLANT_STAGE_SIZE witness Fill(0, PLANT_STAGE_SIZE)

  /** plantInfo_t: the plant type (20 characters) and the growth stage (8). */
  datatype PlantInfo = PlantInfo(plantType: PlantType, stage: PlantStage)

  /** The `bytes` member of plantInfo_u: the same 28 bytes seen as an array. */
  function PlantInfoBytes(p: PlantInfo): (r: seq<byte>)
    ensures |r| == PLANT_INFO_SIZE
  {
    p.plantType + p.stage
  }

  /** The `plantInfo` member of plantInfo_u read from the byte array. */
  function PlantInfoOfBytes(b: seq<byte>): (p: PlantInfo)
    requires |b| == PLANT_INFO_SIZE
  {
    PlantInfo(b[..PLANT_TYPE_SIZE], b[PLANT_TYPE_SIZE..])
  }

  lemma {:induction false} PlantInfoRoundTrip(p: PlantInfo)
    ensures PlantInfoOfBytes(PlantInfoBytes(p)) == p
  {
    var b := PlantInfoBytes(p);
    assert b[..PLANT_TYPE_SIZE] == p.plantType;
    assert b[PLANT_TYPE_SIZE..] == p.stage;
  }

  lemma {:induction false} PlantInfoBytesRoundTrip(b: seq<byte>)
    requires |b| == PLANT_INFO_SIZE
    ensures PlantInfoBytes(PlantInfoOfBytes(b)) == b
  {
    assert b == b[..PLANT_TYPE_SIZE] + b[PLANT_TYPE_SIZE..];
  }

  /** storePlantInfo_t: the sentinel, then the plant info. */
  datatype StorePlantInfo = StorePlantInfo(writeCheck: u32, plantChar: PlantInfo)

  const STORE_PLANT_INFO_SIZE: nat := 32

  function SerializeStorePlantInfo(r: StorePlantInfo): (s: seq<byte>)
    ensures |s| == STORE_PLANT_INFO_SIZE
  {
    EncodeU32(r.writeCheck) + PlantInfoBytes(r.plantChar)
  }

  function DeserializeStorePlantInfo(s: seq<byte>): (r: StorePlantInfo)
    requires |s| == STORE_PLANT_INFO_SIZE
  {
    StorePlantInfo(DecodeU32(s[..4]), PlantInfoOfBytes(s[4..]))
  }

  lemma {:induction false} StorePlantInfoRoundTrip(r: StorePlantInfo)
    ensures DeserializeStorePlantInfo(SerializeStorePlantInfo(r)) == r
  {
    var s := SerializeStorePlantInfo(r);
    assert s[..4] == EncodeU32(r.writeCheck);
    assert s[4..] == PlantInfoBytes(r.plantChar);
    U32RoundTrip(r.writeCheck);
    PlantInfoRoundTrip(r.plantChar);
  }

  lemma {:induction false} StorePlantInfoBytesRoundTrip(s: seq<byte>)
    requires |s| == STORE_PLANT_INFO_SIZE
    ensures SerializeStorePlantInfo(DeserializeStorePlantInfo(s)) == s
  {
    U32BytesRoundTrip(s[..4]);
    PlantInfoBytesRoundTrip(s[4..]);
    assert s == s[..4] + s[4..];
  }

  /** Every stored record fits one block, and the block is exactly as large as
      the largest of them: the sentinel-prefixed plant info. */
  lemma RecordsFitBlock()
    ensures forall r: StoreCalibrationValues :: |SerializeStoreCalibrationValues(r)| <= FlashLayout.BLOCK_SIZE
    ensures forall r: StorePlantInfo :: |SerializeStorePlantInfo(r)| == FlashLayout.BLOCK_SIZE
    ensures DEVNAME_MAX_LEN <= FlashLayout.BLOCK_SIZE
  {
  }

  /** measurements_t: EC_mV[0] is the Vin reading, EC_mV[1] the Vout reading,
      then the pH reading and a padding word for alignment. */
  datatype Measurements = Measurements(ecmV: I16Pair, pHmV: i16, unused: i16)

  const MEASUREMENTS_SIZE: nat := 8

  function SerializeMeasurements(m: Measurements): (s: seq<byte>)
    ensures |s| == MEASUREMENTS_SIZE
  {
    EncodeI16(m.ecmV[0]) + EncodeI16(m.ecmV[1]) + EncodeI16(m.pHmV) + EncodeI16(m.unused)
  }

  /** Where a client finds each reading in the notified bytes. */
  lemma {:induction false} MeasurementsLayout(m: Measurements)
    ensures var s := SerializeMeasurements(m);
      && DecodeI16(s[0], s[1]) == m.ecmV[0]
      && DecodeI16(s[2], s[3]) == m.ecmV[1]
      && DecodeI16(s[4], s[5]) == m.pHmV
  {
    I16RoundTrip(m.ecmV[0]);
    I16RoundTrip(m.ecmV[1]);
    I16RoundTrip(m.pHmV);
  }
}
