/** What the record state manager of src/Ladybug_Hydro.c does to its records,
    as functions on record values: the calibration commands, the three loads
    and the device-name copy. The class in module Hydro is proved against these. */
module HydroSpec {
  import opened Basics
  import opened HydroLayout
  import FlashLayout

  /** The "ideal" pH calibration: pH 4 reads about 178 mV, pH 7 about 0 mV. */
  const PH4_IDEAL_MV: i16 := 178
  const PH7_IDEAL_MV: i16 := 0

  /** The byte '?' that fills a plant-info record never written. */
  const UNKNOWN_CHAR: byte := 0x3F

  /** The calibration values installed when none have been stored. */
  const DEFAULT_CALIBRATION: CalibrationValues :=
    CalibrationValues(PH4_IDEAL_MV, PH7_IDEAL_MV, 0, 0, [0, 0], [0, 0])

  /** The four calibration points a command can address. */
  datatype Point = PH4 | PH7 | EC1 | EC2

  /** What one point holds: a pH point its millivolt reading, an EC point the
      user-entered solution value and the stored (Vin, Vout) pair. */
  datatype PointValue = PHPoint(mV: i16) | ECPoint(solution: u16, pair: Pair)

  function PointOf(c: CalibrationValues, p: Point): PointValue
  {
    match p
    case PH4 => PHPoint(c.pH4mV)
    case PH7 => PHPoint(c.pH7mV)
    case EC1 => ECPoint(c.ec1Solution, c.ec1mV)
    case EC2 => ECPoint(c.ec2Solution, c.ec2mV)
  }

  /** The four points are the whole record: two records with the same points are equal. */
  lemma {:induction false} PointsDetermineRecord(a: CalibrationValues, b: CalibrationValues)
    requires forall p :: PointOf(a, p) == PointOf(b, p)
    ensures a == b
  {
    assert PointOf(a, PH4) == PointOf(b, PH4);
    assert PointOf(a, PH7) == PointOf(b, PH7);
    assert PointOf(a, EC1) == PointOf(b, EC1);
    assert PointOf(a, EC2) == PointOf(b, EC2);
  }

  /** An int16 EC reading pair as the uint16 array members store it. */
  function StoredPair(ec: I16Pair): Pair
  {
    [ToU16(ec[0]), ToU16(ec[1])]
  }

  /** The point a calibrate command addresses: pH 4 or pH 7 for those two
      commands, EC 1 for calibrateEC1 and EC 2 for every other command. */
  function CalibratedPoint(command: ControlCommand): Point
  {
    if command == CalibratePH4 then PH4
    else if command == CalibratePH7 then PH7
    else if command == CalibrateEC1 then EC1
    else EC2
  }

  /** ladybug_update_calibration_value: the addressed point takes the
      readings (a pH point the pH reading, an EC point the solution value and
      the (Vin, Vout) reading as stored uint16s) and the other three points
      are left alone. */
  function Calibrated(c: CalibrationValues, command: ControlCommand, solutionValue: int,
                      pHReading: i16, ecReading: I16Pair): (r: CalibrationValues)
    ensures forall p :: p != CalibratedPoint(command) ==> PointOf(r, p) == PointOf(c, p)
    ensures PointOf(r, CalibratedPoint(command)) ==
      if CalibratedPoint(command) in {PH4, PH7} then PHPoint(pHReading)
      else ECPoint(ToU16(solutionValue), StoredPair(ecReading))
  {
    if command == CalibratePH4 || command == CalibratePH7 then
      if command == CalibratePH4 then c.(pH4mV := pHReading) else c.(pH7mV := pHReading)
    else if command == CalibrateEC1 then
      c.(ec1Solution := ToU16(solutionValue), ec1mV := StoredPair(ecReading))
    else
      c.(ec2Solution := ToU16(solutionValue), ec2mV := StoredPair(ecReading))
  }

  /** The pH point an undo command restores: pH 4 for undoPH4, pH 7 for any
      other command. */
  function UndonePHPoint(command: ControlCommand): Point
  {
    if command == UndoPH4 then PH4 else PH7
  }

  /** The EC point an undo command restores: EC 1 for undoEC1, EC 2 for any
      other command. */
  function UndoneECPoint(command: ControlCommand): Point
  {
    if command == UndoEC1 then EC1 else EC2
  }

  /** ladybug_undo_pH_calibration: the supplied value goes into exactly one pH
      point. */
  function PHUndone(c: CalibrationValues, command: ControlCommand, pHCalValue: i16): (r: CalibrationValues)
    ensures PointOf(r, UndonePHPoint(command)) == PHPoint(pHCalValue)
    ensures forall p :: p != UndonePHPoint(command) ==> PointOf(r, p) == PointOf(c, p)
  {
    if command == UndoPH4 then c.(pH4mV := pHCalValue) else c.(pH7mV := pHCalValue)
  }

  /** ladybug_undo_EC_calibration: the supplied (Vin, Vout) goes into exactly
      one EC point, whose solution value is kept. */
  function ECUndone(c: CalibrationValues, command: ControlCommand, ecVin: i16, ecVout: i16): (r: CalibrationValues)
    ensures r.ec1Solution == c.ec1Solution && r.ec2Solution == c.ec2Solution
    ensures PointOf(r, UndoneECPoint(command))
         == ECPoint(PointOf(c, UndoneECPoint(command)).solution, StoredPair([ecVin, ecVout]))
    ensures forall p :: p != UndoneECPoint(command) ==> PointOf(r, p) == PointOf(c, p)
  {
    if command == UndoEC1 then c.(ec1mV := StoredPair([ecVin, ecVout]))
    else c.(ec2mV := StoredPair([ecVin, ecVout]))
  }

  /** reset_pH_calibration_values. */
  function PHReset(c: CalibrationValues): CalibrationValues
  {
    c.(pH4mV := PH4_IDEAL_MV, pH7mV := PH7_IDEAL_MV)
  }

  /** reset_EC_calibration_values: the measured pairs and, despite the comment
      beside the loop, both solution values. */
  function ECReset(c: CalibrationValues): CalibrationValues
  {
    c.(ec1mV := [0, 0], ec2mV := [0, 0], ec1Solution := 0, ec2Solution := 0)
  }

  /** ladybug_reset_calibration_values: resetPHcalValues puts the pH points
      at their ideal values, every other command zeroes both EC points with
      their solutions; the other family is never touched. */
  function CalibrationReset(c: CalibrationValues, command: ControlCommand): (r: CalibrationValues)
    ensures command == ResetPHCalValues ==>
      && PointOf(r, PH4) == PHPoint(178) && PointOf(r, PH7) == PHPoint(0)
      && PointOf(r, EC1) == PointOf(c, EC1) && PointOf(r, EC2) == PointOf(c, EC2)
    ensures command != ResetPHCalValues ==>
      && PointOf(r, EC1) == ECPoint(0, [0, 0]) && PointOf(r, EC2) == ECPoint(0, [0, 0])
      && PointOf(r, PH4) == PointOf(c, PH4) && PointOf(r, PH7) == PointOf(c, PH7)
  {
    if command == ResetPHCalValues then PHReset(c) else ECReset(c)
  }

  /** Resetting both families yields the defaults whatever the record held. */
  lemma {:induction false} ResetAllIsDefault(c: CalibrationValues)
    ensures ECReset(PHReset(c)) == DEFAULT_CALIBRATION
  {
    var r := ECReset(PHReset(c));
    forall p ensures PointOf(r, p) == PointOf(DEFAULT_CALIBRATION, p) {
    }
    PointsDetermineRecord(r, DEFAULT_CALIBRATION);
  }

  /** Calibrating EC 1 and then EC 2, with any solution values and any
      readings, keeps the EC 1 point from the first call, takes the EC 2
      point from the second and leaves both pH points alone. */
  lemma {:induction false} TwoPointECCalibration(c: CalibrationValues, s1: int, s2: int,
                                                  pH1: i16, pH2: i16, in1: I16Pair, in2: I16Pair)
    ensures var r := Calibrated(Calibrated(c, CalibrateEC1, s1, pH1, in1), CalibrateEC2, s2, pH2, in2);
      && PointOf(r, EC1) == ECPoint(ToU16(s1), StoredPair(in1))
      && PointOf(r, EC2) == ECPoint(ToU16(s2), StoredPair(in2))
      && PointOf(r, PH4) == PointOf(c, PH4) && PointOf(r, PH7) == PointOf(c, PH7)
      && (ToU16(s1) != ToU16(s2) ==> r.ec1Solution != r.ec2Solution)
  {
    var r1 := Calibrated(c, CalibrateEC1, s1, pH1, in1);
    assert PointOf(r1, EC1) == ECPoint(ToU16(s1), StoredPair(in1));
    assert PointOf(r1, PH4) == PointOf(c, PH4) && PointOf(r1, PH7) == PointOf(c, PH7);
  }

  /** ladybug_get_calibrationValues as written: the block is read into the
      calibration values only, not the sentinel before them (the model keeps the
      payload's 16 bytes of the 32 the read delivers), and the sentinel then
      compared is the one already in memory. On a mismatch the sentinel is set and
      both families go to their defaults. The flag says whether the record was
      marked dirty. */
  function CalibrationAfterLoad(store: StoreCalibrationValues, payload: seq<byte>): (r: (StoreCalibrationValues, bool))
    requires |payload| == CALIBRATION_VALUES_SIZE
    ensures r.0.writeCheck == WRITE_CHECK
    ensures r.1 <==> store.writeCheck != WRITE_CHECK
    ensures r.1 ==> r.0.calValues == DEFAULT_CALIBRATION
    ensures !r.1 ==> r.0 == store.(calValues := DeserializeCalibrationValues(payload))
  {
    var loaded := store.(calValues := DeserializeCalibrationValues(payload));
    if loaded.writeCheck != WRITE_CHECK then
      ResetAllIsDefault(loaded.calValues);
      (StoreCalibrationValues(WRITE_CHECK, ECReset(PHReset(loaded.calValues))), true)
    else
      (loaded, false)
  }

  /** The corrected load: the whole sentinel-prefixed record is read from the
      block, and the sentinel compared is the stored one: it alone decides
      whether the defaults are installed, and a clean load is the record the
      block holds. */
  function CalibrationAfterLoadIntended(block: seq<byte>): (r: (StoreCalibrationValues, bool))
    requires |block| == FlashLayout.BLOCK_SIZE
    ensures r.0.writeCheck == WRITE_CHECK
    ensures r.1 <==> DecodeU32(block[..4]) != WRITE_CHECK
    ensures r.1 ==> r.0.calValues == DEFAULT_CALIBRATION
    ensures !r.1 ==> SerializeStoreCalibrationValues(r.0) == block[..STORE_CALIBRATION_VALUES_SIZE]
  {
    StoreCalibrationValuesBytesRoundTrip(block[..STORE_CALIBRATION_VALUES_SIZE]);
    assert block[..STORE_CALIBRATION_VALUES_SIZE][..4] == block[..4];
    var loaded := DeserializeStoreCalibrationValues(block[..STORE_CALIBRATION_VALUES_SIZE]);
    if loaded.writeCheck != WRITE_CHECK then (StoreCalibrationValues(WRITE_CHECK, DEFAULT_CALIBRATION), true)
    else (loaded, false)
  }

  /** Sentinel round trip of the corrected load: a record written with the sentinel
      comes back byte for byte; an erased block yields the defaults, marked dirty. */
  lemma {:induction false} CalibrationIntendedRoundTrip(rec: StoreCalibrationValues)
    requires rec.writeCheck == WRITE_CHECK
    ensures CalibrationAfterLoadIntended(FlashLayout.WrittenBlock(SerializeStoreCalibrationValues(rec))) == (rec, false)
    ensures CalibrationAfterLoadIntended(Fill(FlashLayout.ERASED, FlashLayout.BLOCK_SIZE))
         == (StoreCalibrationValues(WRITE_CHECK, DEFAULT_CALIBRATION), true)
  {
    var s := SerializeStoreCalibrationValues(rec);
    assert FlashLayout.WrittenBlock(s)[..STORE_CALIBRATION_VALUES_SIZE] == s;
    StoreCalibrationValuesRoundTrip(rec);
    var erased := Fill(FlashLayout.ERASED, FlashLayout.BLOCK_SIZE)[..STORE_CALIBRATION_VALUES_SIZE];
    assert erased[..4] == [0xFF, 0xFF, 0xFF, 0xFF];
    assert DecodeU32(erased[..4]) == 0xFFFF_FFFF;
  }

  /** The record as it is at power-up: statics are zero, so the in-memory sentinel is 0. */
  const ZERO_CALIBRATION_STORE: StoreCalibrationValues :=
    StoreCalibrationValues(0, CalibrationValues(0, 0, 0, 0, [0, 0], [0, 0]))

  /** As written, the load at start-up never restores a stored calibration: whatever
      the block holds, the in-memory sentinel is still 0, so the defaults replace it. */
  lemma {:induction false} BootCalibrationLoadDiscardsStore(payload: seq<byte>)
    requires |payload| == CALIBRATION_VALUES_SIZE
    ensures CalibrationAfterLoad(ZERO_CALIBRATION_STORE, payload)
         == (StoreCalibrationValues(WRITE_CHECK, DEFAULT_CALIBRATION), true)
  {
  }

  /** A calibrated pH4 point of 150 mV, written to its block, does not survive
      the boot load: it comes back as the ideal 178 mV. */
  lemma {:induction false} StoredCalibrationLost()
    ensures var stored := StoreCalibrationValues(WRITE_CHECK, DEFAULT_CALIBRATION.(pH4mV := 150));
      var block := FlashLayout.WrittenBlock(SerializeStoreCalibrationValues(stored));
      CalibrationAfterLoad(ZERO_CALIBRATION_STORE, block[..CALIBRATION_VALUES_SIZE]).0.calValues.pH4mV == 178
  {
    var stored := StoreCalibrationValues(WRITE_CHECK, DEFAULT_CALIBRATION.(pH4mV := 150));
    var block := FlashLayout.WrittenBlock(SerializeStoreCalibrationValues(stored));
    BootCalibrationLoadDiscardsStore(block[..CALIBRATION_VALUES_SIZE]);
  }

  /** ladybug_get_plantInfo as written: the read fills the plant-info bytes only
      (the model keeps 28 of the 32 bytes delivered), and the sentinel then
      compared is the one already in memory. On a mismatch all 32 bytes of the
      record are set to '?', then the sentinel is set and the record is marked
      dirty; otherwise only the plant-info bytes change, to the loaded ones. */
  function PlantInfoAfterLoad(store: StorePlantInfo, payload: seq<byte>): (r: (StorePlantInfo, bool))
    requires |payload| == PLANT_INFO_SIZE
    ensures r.0.writeCheck == WRITE_CHECK
    ensures r.1 <==> store.writeCheck != WRITE_CHECK
    ensures r.1 ==> PlantInfoBytes(r.0.plantChar) == Fill(UNKNOWN_CHAR, PLANT_INFO_SIZE)
    ensures !r.1 ==> r.0 == store.(plantChar := r.0.plantChar) && PlantInfoBytes(r.0.plantChar) == payload
  {
    var loaded := store.(plantChar := PlantInfoOfBytes(payload));
    if loaded.writeCheck != WRITE_CHECK then
      var unknown := Fill(UNKNOWN_CHAR, STORE_PLANT_INFO_SIZE);
      PlantInfoBytesRoundTrip(unknown[4..]);
      assert unknown[4..] == Fill(UNKNOWN_CHAR, PLANT_INFO_SIZE);
      (DeserializeStorePlantInfo(unknown).(writeCheck := WRITE_CHECK), true)
    else
      PlantInfoBytesRoundTrip(payload);
      (loaded, false)
  }

  /** The corrected plant-info load: the whole record is read from the block
      and the sentinel compared is the stored one; a record without it gives
      '?' plant info, marked dirty. */
  function PlantInfoAfterLoadIntended(block: seq<byte>): (r: (StorePlantInfo, bool))
    requires |block| == FlashLayout.BLOCK_SIZE
    ensures r.0.writeCheck == WRITE_CHECK
    ensures r.1 <==> DecodeU32(block[..4]) != WRITE_CHECK
    ensures r.1 ==> PlantInfoBytes(r.0.plantChar) == Fill(UNKNOWN_CHAR, PLANT_INFO_SIZE)
    ensures !r.1 ==> SerializeStorePlantInfo(r.0) == block
  {
    StorePlantInfoBytesRoundTrip(block);
    PlantInfoBytesRoundTrip(Fill(UNKNOWN_CHAR, PLANT_INFO_SIZE));
    var loaded := DeserializeStorePlantInfo(block);
    if loaded.writeCheck != WRITE_CHECK then
      (StorePlantInfo(WRITE_CHECK, PlantInfoOfBytes(Fill(UNKNOWN_CHAR, PLANT_INFO_SIZE))), true)
    else
      (loaded, false)
  }

  /** Sentinel round trip of the corrected plant-info load: a record written
      with the sentinel comes back unchanged and clean; an erased block gives
      '?' plant info, marked dirty. */
  lemma {:induction false} PlantInfoIntendedRoundTrip(rec: StorePlantInfo)
    requires rec.writeCheck == WRITE_CHECK
    ensures PlantInfoAfterLoadIntended(FlashLayout.WrittenBlock(SerializeStorePlantInfo(rec))) == (rec, false)
    ensures PlantInfoAfterLoadIntended(Fill(FlashLayout.ERASED, FlashLayout.BLOCK_SIZE))
         == (StorePlantInfo(WRITE_CHECK, PlantInfoOfBytes(Fill(UNKNOWN_CHAR, PLANT_INFO_SIZE))), true)
  {
    var s := SerializeStorePlantInfo(rec);
    assert FlashLayout.WrittenBlock(s) == s;
    StorePlantInfoRoundTrip(rec);
    var erased := Fill(FlashLayout.ERASED, FlashLayout.BLOCK_SIZE);
    assert erased[..4] == [0xFF, 0xFF, 0xFF, 0xFF];
    assert DecodeU32(erased[..4]) == 0xFFFF_FFFF;
  }

  const ZERO_PLANT_INFO_STORE: StorePlantInfo :=
    StorePlantInfo(0, PlantInfo(Fill(0, PLANT_TYPE_SIZE), Fill(0, PLANT_STAGE_SIZE)))

  /** As written, the plant info stored before a restart is never restored either. */
  lemma {:induction false} BootPlantInfoLoadDiscardsStore(payload: seq<byte>)
    requires |payload| == PLANT_INFO_SIZE
    ensures var (r, dirty) := PlantInfoAfterLoad(ZERO_PLANT_INFO_STORE, payload);
      dirty && PlantInfoBytes(r.plantChar) == Fill(UNKNOWN_CHAR, PLANT_INFO_SIZE)
  {
  }

  /** ladybug_get_device_name: a block whose first byte is erased gets "LBL" and
      its terminating 0 copied over its start and is marked dirty; the name is
      then the first DEVNAME_MAX_LEN bytes of the block. */
  function DeviceNameAfterLoad(buffer: seq<byte>): (r: (seq<byte>, bool))
    requires |buffer| == FlashLayout.BLOCK_SIZE
    ensures |r.0| == DEVNAME_MAX_LEN
    ensures r.1 <==> buffer[0] == FlashLayout.ERASED
    ensures r.1 ==> r.0[..4] == DEFAULT_DEVICE_NAME + [0] && r.0[4..] == buffer[4..DEVNAME_MAX_LEN]
    ensures !r.1 ==> r.0 == buffer[..DEVNAME_MAX_LEN]
  {
    var b := if buffer[0] == FlashLayout.ERASED then DEFAULT_DEVICE_NAME + [0] + buffer[4..] else buffer;
    (b[..DEVNAME_MAX_LEN], buffer[0] == FlashLayout.ERASED)
  }

  /** A name written by the write-back loop (DEVNAME_MAX_LEN bytes) loads back
      unchanged, unless it begins with the erased byte. */
  lemma {:induction false} DeviceNameRoundTrip(name: seq<byte>)
    requires |name| == DEVNAME_MAX_LEN && name[0] != FlashLayout.ERASED
    ensures DeviceNameAfterLoad(FlashLayout.WrittenBlock(name)) == (name, false)
  {
    var block := FlashLayout.WrittenBlock(name);
    assert block[..DEVNAME_MAX_LEN] == name;
  }

  /** ladybug_write_device_name: the first `len` bytes come from the new name,
      the rest of the buffer keeps its old bytes. */
  function NameCopied(buffer: seq<byte>, name: seq<byte>, len: nat): (r: seq<byte>)
    requires len <= |buffer| && len <= |name|
    ensures |r| == |buffer|
    ensures forall i :: 0 <= i < len ==> r[i] == name[i]
    ensures forall i :: len <= i < |buffer| ==> r[i] == buffer[i]
  {
    name[..len] + buffer[len..]
  }

  /** strlen of a name buffer: the bytes before the first 0, or the whole buffer
      when it holds no 0 (the model stops at the end of the buffer). */
  function NameLength(s: seq<byte>): (n: nat)
    ensures n <= |s|
    ensures forall i :: 0 <= i < n ==> s[i] != 0
    ensures n < |s| ==> s[n] == 0
  {
    if s == [] || s[0] == 0 then 0 else 1 + NameLength(s[1..])
  }

  /** The default name is three characters long as the GAP layer sees it. */
  lemma {:induction false} DefaultNameLength(rest: seq<byte>)
    ensures NameLength(DEFAULT_DEVICE_NAME + [0] + rest) == 3
  {
    var s := DEFAULT_DEVICE_NAME + [0] + rest;
    assert s[3] == 0;
  }
}
