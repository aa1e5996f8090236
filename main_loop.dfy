/** The application of src/main.c: start-up in its order (block store first,
    then the device name for the GAP layer, then the service, whose
    characteristics load plant info and calibration), and one pass of the lazy
    write-back loop. Completion results of the storage service are parameters;
    the timer is taken not to fire. The error handler logs and returns, which
    the block store's error list records. */
module MainLoop {
  import opened Basics
  import opened FlashLayout
  import opened HydroLayout
  import opened HydroSpec
  import opened Flash
  import Hydro
  import LblService

  /** The outcome the storage service reports for the clear and the store of
      one write. */
  datatype WriteOutcome = WriteOutcome(clearResult: u32, storeResult: u32)

  function OutcomeOk(o: WriteOutcome): bool
  {
    o.clearResult == SUCCESS && o.storeResult == SUCCESS
  }

  /** What the error handler logs for one write of the loop: the missing
      callback is the only check that can fail, and it does not stop the
      write, which then logs the clear's and the store's failure. */
  function WriteErrors(cb: Option<Callback>, outcome: WriteOutcome): (e: seq<ErrorCode>)
    ensures e == [] <==> cb.Some? && OutcomeOk(outcome)
    ensures cb.None? <==> |e| > 0 && e[0] == NullPointer
    ensures forall i :: (if cb.None? then 1 else 0) <= i < |e| ==> e[i].ServiceError?
    ensures |e| <= 3
  {
    (if cb.None? then [NullPointer] else []) + ResultErrors(outcome.clearResult) + ResultErrors(outcome.storeResult)
  }

  /** The record state manager at power-up (zeroed statics). */
  ghost predicate PowerUpState(h: Hydro.HydroState)
    reads h
  {
    && h.Valid()
    && h.calibration == ZERO_CALIBRATION_STORE && h.plantInfo == ZERO_PLANT_INFO_STORE
    && h.measurements == Measurements([0, 0], 0, 0)
    && !h.writeCalibration && !h.writePlantInfo && !h.writeDeviceName
  }

  /** One whole-block read of a stored kind, as the loads issue it. */
  method ReadRecord(flash: FlashStore, k: Kind, dest: seq<byte>, cb: Option<Callback>, result: u32)
    returns (data: seq<byte>)
    requires flash.Valid() && flash.initialized && flash.phase == Idle
    requires k != HydroValues && |dest| == BLOCK_SIZE
    modifies flash
    ensures flash.Valid() && flash.initialized && flash.phase == Idle && flash.blocks == old(flash.blocks)
    ensures flash.issued == old(flash.issued) + [Load(BLOCK_HANDLES[k])]
    ensures data == if result == SUCCESS then flash.blocks[BLOCK_HANDLES[k]] else dest
  {
    data := flash.Read(k, dest, cb, result);
  }

  /** One write of the loop: a clear and a store of `bytes` into the kind's
      block, with or without a callback; a missing one is only logged. */
  method WriteRecord(flash: FlashStore, k: Kind, bytes: seq<byte>, cb: Option<Callback>, outcome: WriteOutcome)
    requires flash.Valid() && flash.initialized && flash.phase == Idle
    requires k != HydroValues && 0 < |bytes| <= BLOCK_SIZE
    modifies flash
    ensures flash.Valid() && flash.initialized && flash.phase == Idle
    ensures flash.issued == old(flash.issued)
      + [Clear(BLOCK_HANDLES[k]), Store(BLOCK_HANDLES[k], bytes)]
    ensures forall b :: 0 <= b < BLOCK_COUNT && b != BLOCK_HANDLES[k] ==> flash.blocks[b] == old(flash.blocks)[b]
    ensures var b := BLOCK_HANDLES[k];
      flash.blocks[b] == BlockAfterWrite(old(flash.blocks)[b], bytes, outcome.clearResult, outcome.storeResult)
    ensures OutcomeOk(outcome) ==> flash.blocks[BLOCK_HANDLES[k]] == WrittenBlock(bytes)
    ensures flash.errors == old(flash.errors) + WriteErrors(cb, outcome)
  {
    var _ := flash.Write(k, Some(bytes), |bytes|, cb, outcome.clearResult, outcome.storeResult);
    assert bytes[..|bytes|] == bytes;
  }

  /** main up to its loop, with the block store's part of each step. The
      device-name read fills a zeroed stack buffer; the plant-info and
      calibration reads fill the payload fields, of which the model keeps the
      bytes that fit. `cb` stands for the callback argument the callers leave
      out; `pHReading` and `ecReading` are what the ADC delivers when the
      measurement characteristic is added. Whatever the flash holds,
      calibration and plant info end at their defaults, marked dirty. */
  method Boot(flash: FlashStore, hydro: Hydro.HydroState, controlHandle: u16, cb: Option<Callback>,
              nameResult: u32, plantResult: u32, calibrationResult: u32, pHReading: i16, ecReading: I16Pair)
    returns (service: LblService.Service)
    requires flash.Valid() && !flash.initialized && flash.phase == Idle
    requires PowerUpState(hydro)
    modifies flash, hydro
    ensures fresh(service) && service.Valid() && service.hydro == hydro
    ensures flash.Valid() && flash.initialized && flash.phase == Idle && flash.blocks == old(flash.blocks)
    ensures flash.issued == old(flash.issued) + [Load(2), Load(1), Load(0)]
    ensures (hydro.deviceName, hydro.writeDeviceName)
         == DeviceNameAfterLoad(if nameResult == SUCCESS then old(flash.blocks)[2] else Fill(0, BLOCK_SIZE))
    ensures service.gapName == hydro.deviceName[..NameLength(hydro.deviceName)]
    ensures service.connHandle == LblService.BLE_CONN_HANDLE_INVALID && service.notifications == []
    ensures hydro.calibration == StoreCalibrationValues(WRITE_CHECK, DEFAULT_CALIBRATION) && hydro.writeCalibration
    ensures hydro.plantInfo.writeCheck == WRITE_CHECK && hydro.writePlantInfo
    ensures PlantInfoBytes(hydro.plantInfo.plantChar) == Fill(UNKNOWN_CHAR, PLANT_INFO_SIZE)
    ensures hydro.measurements == Measurements(ecReading, pHReading, 0)
  {
    // ladybug_flash_init, then gap_params_init
    var gapName := LoadDeviceNameAtBoot(flash, hydro, cb, nameResult);
    // service_init: ble_lbl_init, then plantInfo_char_add, measurement_char_add and calibration_char_add
    service := new LblService.Service(hydro, controlHandle, gapName);
    LoadRecordsAtBoot(flash, hydro, cb, plantResult, calibrationResult, pHReading, ecReading);
  }

  /** ladybug_flash_init, then gap_params_init: the name is read into a
      zeroed buffer and handed to the GAP layer up to its first 0. */
  method LoadDeviceNameAtBoot(flash: FlashStore, hydro: Hydro.HydroState, cb: Option<Callback>, nameResult: u32)
    returns (gapName: seq<byte>)
    requires flash.Valid() && !flash.initialized && flash.phase == Idle
    requires hydro.Valid() && !hydro.writeDeviceName
    modifies flash, hydro`deviceName, hydro`writeDeviceName
    ensures hydro.Valid()
    ensures flash.Valid() && flash.initialized && flash.phase == Idle && flash.blocks == old(flash.blocks)
    ensures flash.issued == old(flash.issued) + [Load(2)]
    ensures (hydro.deviceName, hydro.writeDeviceName)
         == DeviceNameAfterLoad(if nameResult == SUCCESS then old(flash.blocks)[2] else Fill(0, BLOCK_SIZE))
    ensures gapName == hydro.deviceName[..NameLength(hydro.deviceName)]
  {
    flash.Init();
    var nameBlock := ReadRecord(flash, Kind.DeviceName, Fill(0, BLOCK_SIZE), cb, nameResult);
    hydro.LoadDeviceName(nameBlock);
    gapName := hydro.deviceName[..NameLength(hydro.deviceName)];
  }

  /** The loads of plantInfo_char_add and calibration_char_add, in that order,
      into a record state manager still at its power-up values, with the
      measurement read of measurement_char_add between them. */
  method LoadRecordsAtBoot(flash: FlashStore, hydro: Hydro.HydroState, cb: Option<Callback>,
                           plantResult: u32, calibrationResult: u32, pHReading: i16, ecReading: I16Pair)
    requires flash.Valid() && flash.initialized && flash.phase == Idle
    requires hydro.Valid() && hydro.calibration == ZERO_CALIBRATION_STORE && hydro.plantInfo == ZERO_PLANT_INFO_STORE
    modifies flash, hydro`calibration, hydro`writeCalibration, hydro`plantInfo, hydro`writePlantInfo, hydro`measurements
    ensures hydro.Valid()
    ensures flash.Valid() && flash.initialized && flash.phase == Idle && flash.blocks == old(flash.blocks)
    ensures flash.issued == old(flash.issued) + [Load(1), Load(0)]
    ensures hydro.calibration == StoreCalibrationValues(WRITE_CHECK, DEFAULT_CALIBRATION) && hydro.writeCalibration
    ensures hydro.plantInfo.writeCheck == WRITE_CHECK && hydro.writePlantInfo
    ensures PlantInfoBytes(hydro.plantInfo.plantChar) == Fill(UNKNOWN_CHAR, PLANT_INFO_SIZE)
    ensures hydro.measurements == old(hydro.measurements).(pHmV := pHReading, ecmV := ecReading)
  {
    LoadPlantInfoAtBoot(flash, hydro, cb, plantResult);
    hydro.GetMeasurements(pHReading, ecReading);
    LoadCalibrationAtBoot(flash, hydro, cb, calibrationResult);
  }

  /** plantInfo_char_add's load: the block is read into the plant-info
      bytes, of which the model keeps the 28 that fit; from zeroed statics the
      result is '?' plant info, marked dirty. */
  method LoadPlantInfoAtBoot(flash: FlashStore, hydro: Hydro.HydroState, cb: Option<Callback>, result: u32)
    requires flash.Valid() && flash.initialized && flash.phase == Idle
    requires hydro.Valid() && hydro.plantInfo == ZERO_PLANT_INFO_STORE
    modifies flash, hydro`plantInfo, hydro`writePlantInfo
    ensures hydro.Valid()
    ensures flash.Valid() && flash.initialized && flash.phase == Idle && flash.blocks == old(flash.blocks)
    ensures flash.issued == old(flash.issued) + [Load(1)]
    ensures hydro.plantInfo.writeCheck == WRITE_CHECK && hydro.writePlantInfo
    ensures PlantInfoBytes(hydro.plantInfo.plantChar) == Fill(UNKNOWN_CHAR, PLANT_INFO_SIZE)
  {
    var dest := PlantInfoBytes(hydro.plantInfo.plantChar) + Fill(0, BLOCK_SIZE - PLANT_INFO_SIZE);
    var block := ReadRecord(flash, Kind.PlantInfo, dest, cb, result);
    var payload := block[..PLANT_INFO_SIZE];
    BootPlantInfoLoadDiscardsStore(payload);
    hydro.LoadPlantInfo(payload);
  }

  /** calibration_char_add's load: the block is read into the calibration
      payload, of which the model keeps the 16 bytes that fit; from zeroed
      statics the result is the default calibration, marked dirty. */
  method LoadCalibrationAtBoot(flash: FlashStore, hydro: Hydro.HydroState, cb: Option<Callback>, result: u32)
    requires flash.Valid() && flash.initialized && flash.phase == Idle
    requires hydro.Valid() && hydro.calibration == ZERO_CALIBRATION_STORE
    modifies flash, hydro`calibration, hydro`writeCalibration
    ensures hydro.Valid()
    ensures flash.Valid() && flash.initialized && flash.phase == Idle && flash.blocks == old(flash.blocks)
    ensures flash.issued == old(flash.issued) + [Load(0)]
    ensures hydro.calibration == StoreCalibrationValues(WRITE_CHECK, DEFAULT_CALIBRATION) && hydro.writeCalibration
  {
    var dest := SerializeCalibrationValues(hydro.calibration.calValues) + Fill(0, BLOCK_SIZE - CALIBRATION_VALUES_SIZE);
    var block := ReadRecord(flash, Kind.CalibrationValues, dest, cb, result);
    InstallBootCalibration(hydro, block[..CALIBRATION_VALUES_SIZE]);
  }

  /** The sentinel check of the calibration load on zeroed statics: whatever
      payload the read delivered, the defaults are installed, marked dirty. */
  method InstallBootCalibration(hydro: Hydro.HydroState, payload: seq<byte>)
    requires hydro.Valid() && hydro.calibration == ZERO_CALIBRATION_STORE && |payload| == CALIBRATION_VALUES_SIZE
    modifies hydro`calibration, hydro`writeCalibration
    ensures hydro.Valid()
    ensures hydro.calibration == StoreCalibrationValues(WRITE_CHECK, DEFAULT_CALIBRATION) && hydro.writeCalibration
  {
    BootCalibrationLoadDiscardsStore(payload);
    hydro.LoadCalibration(payload);
  }

  /** One pass of main's for(;;) loop: poll calibration, then plant info, then
      the device name, and write each record whose poll reports it dirty: the
      whole sentinel-prefixed calibration record, the whole plant-info record,
      and DEVNAME_MAX_LEN bytes of name. Afterwards no record is dirty, only
      the blocks of dirty records can have changed, each to `BlockAfterWrite`
      of its outcome, and each failure is logged. A write that succeeds leaves
      its record's bytes padded with the erase pattern; since the poll has
      already cleared the flag and nothing retries, a store that fails after
      a good clear leaves the block erased while the record counts as clean. */
  method WriteBackPass(flash: FlashStore, hydro: Hydro.HydroState, cb: Option<Callback>,
                       calibrationOutcome: WriteOutcome, plantOutcome: WriteOutcome, nameOutcome: WriteOutcome)
    requires flash.Valid() && flash.initialized && flash.phase == Idle
    requires hydro.Valid()
    modifies flash, hydro`writeCalibration, hydro`writePlantInfo, hydro`writeDeviceName
    ensures flash.Valid() && flash.initialized && flash.phase == Idle
    ensures !hydro.writeCalibration && !hydro.writePlantInfo && !hydro.writeDeviceName
    ensures var cal := SerializeStoreCalibrationValues(hydro.calibration);
      var plant := SerializeStorePlantInfo(hydro.plantInfo);
      flash.issued == old(flash.issued)
        + (if old(hydro.writeCalibration) then [Clear(0), Store(0, cal)] else [])
        + (if old(hydro.writePlantInfo) then [Clear(1), Store(1, plant)] else [])
        + (if old(hydro.writeDeviceName) then [Clear(2), Store(2, hydro.deviceName)] else [])
    ensures !old(hydro.writeCalibration) ==> flash.blocks[0] == old(flash.blocks)[0]
    ensures !old(hydro.writePlantInfo) ==> flash.blocks[1] == old(flash.blocks)[1]
    ensures !old(hydro.writeDeviceName) ==> flash.blocks[2] == old(flash.blocks)[2]
    ensures old(hydro.writeCalibration) && OutcomeOk(calibrationOutcome) ==>
      flash.blocks[0] == WrittenBlock(SerializeStoreCalibrationValues(hydro.calibration))
    ensures old(hydro.writePlantInfo) && OutcomeOk(plantOutcome) ==>
      flash.blocks[1] == WrittenBlock(SerializeStorePlantInfo(hydro.plantInfo))
    ensures old(hydro.writeDeviceName) && OutcomeOk(nameOutcome) ==>
      flash.blocks[2] == WrittenBlock(hydro.deviceName)
    ensures old(hydro.writeCalibration) ==> flash.blocks[0] == BlockAfterWrite(old(flash.blocks)[0],
      SerializeStoreCalibrationValues(hydro.calibration), calibrationOutcome.clearResult, calibrationOutcome.storeResult)
    ensures old(hydro.writePlantInfo) ==> flash.blocks[1] == BlockAfterWrite(old(flash.blocks)[1],
      SerializeStorePlantInfo(hydro.plantInfo), plantOutcome.clearResult, plantOutcome.storeResult)
    ensures old(hydro.writeDeviceName) ==> flash.blocks[2] == BlockAfterWrite(old(flash.blocks)[2],
      hydro.deviceName, nameOutcome.clearResult, nameOutcome.storeResult)
    ensures flash.errors == old(flash.errors)
      + (if old(hydro.writeCalibration) then WriteErrors(cb, calibrationOutcome) else [])
      + (if old(hydro.writePlantInfo) then WriteErrors(cb, plantOutcome) else [])
      + (if old(hydro.writeDeviceName) then WriteErrors(cb, nameOutcome) else [])
  {
    FlushCalibration(flash, hydro, cb, calibrationOutcome);
    FlushPlantInfo(flash, hydro, cb, plantOutcome);
    FlushDeviceName(flash, hydro, cb, nameOutcome);
  }

  /** The loop's first step: poll the calibration record and, if dirty, write
      the whole sentinel-prefixed record to block 0. */
  method FlushCalibration(flash: FlashStore, hydro: Hydro.HydroState, cb: Option<Callback>, outcome: WriteOutcome)
    requires flash.Valid() && flash.initialized && flash.phase == Idle
    requires hydro.Valid()
    modifies flash, hydro`writeCalibration
    ensures flash.Valid() && flash.initialized && flash.phase == Idle
    ensures !hydro.writeCalibration
    ensures flash.issued == old(flash.issued)
      + (if old(hydro.writeCalibration)
         then [Clear(0), Store(0, SerializeStoreCalibrationValues(hydro.calibration))] else [])
    ensures forall b :: 0 <= b < BLOCK_COUNT && (b != 0 || !old(hydro.writeCalibration)) ==>
      flash.blocks[b] == old(flash.blocks)[b]
    ensures old(hydro.writeCalibration) ==>
      flash.blocks[0] == BlockAfterWrite(old(flash.blocks)[0], SerializeStoreCalibrationValues(hydro.calibration), outcome.clearResult, outcome.storeResult)
    ensures old(hydro.writeCalibration) && OutcomeOk(outcome) ==>
      flash.blocks[0] == WrittenBlock(SerializeStoreCalibrationValues(hydro.calibration))
    ensures flash.errors == old(flash.errors) + (if old(hydro.writeCalibration) then WriteErrors(cb, outcome) else [])
  {
    var pending := hydro.CalibrationValuesToWrite();
    if pending.Some? {
      WriteRecord(flash, Kind.CalibrationValues, SerializeStoreCalibrationValues(pending.value), cb, outcome);
    }
  }

  /** The loop's second step: poll plant info and, if dirty, write the whole
      record to block 1. */
  method FlushPlantInfo(flash: FlashStore, hydro: Hydro.HydroState, cb: Option<Callback>, outcome: WriteOutcome)
    requires flash.Valid() && flash.initialized && flash.phase == Idle
    requires hydro.Valid()
    modifies flash, hydro`writePlantInfo
    ensures flash.Valid() && flash.initialized && flash.phase == Idle
    ensures !hydro.writePlantInfo
    ensures flash.issued == old(flash.issued)
      + (if old(hydro.writePlantInfo)
         then [Clear(1), Store(1, SerializeStorePlantInfo(hydro.plantInfo))] else [])
    ensures forall b :: 0 <= b < BLOCK_COUNT && (b != 1 || !old(hydro.writePlantInfo)) ==>
      flash.blocks[b] == old(flash.blocks)[b]
    ensures old(hydro.writePlantInfo) ==>
      flash.blocks[1] == BlockAfterWrite(old(flash.blocks)[1], SerializeStorePlantInfo(hydro.plantInfo), outcome.clearResult, outcome.storeResult)
    ensures old(hydro.writePlantInfo) && OutcomeOk(outcome) ==>
      flash.blocks[1] == WrittenBlock(SerializeStorePlantInfo(hydro.plantInfo))
    ensures flash.errors == old(flash.errors) + (if old(hydro.writePlantInfo) then WriteErrors(cb, outcome) else [])
  {
    var pending := hydro.PlantInfoValuesToWrite();
    if pending.Some? {
      WriteRecord(flash, Kind.PlantInfo, SerializeStorePlantInfo(pending.value), cb, outcome);
    }
  }

  /** The loop's third step: poll the device name and, if it changed, write
      DEVNAME_MAX_LEN bytes of it to block 2. */
  method FlushDeviceName(flash: FlashStore, hydro: Hydro.HydroState, cb: Option<Callback>, outcome: WriteOutcome)
    requires flash.Valid() && flash.initialized && flash.phase == Idle
    requires hydro.Valid()
    modifies flash, hydro`writeDeviceName
    ensures flash.Valid() && flash.initialized && flash.phase == Idle
    ensures !hydro.writeDeviceName
    ensures flash.issued == old(flash.issued)
      + (if old(hydro.writeDeviceName) then [Clear(2), Store(2, hydro.deviceName)] else [])
    ensures forall b :: 0 <= b < BLOCK_COUNT && (b != 2 || !old(hydro.writeDeviceName)) ==>
      flash.blocks[b] == old(flash.blocks)[b]
    ensures old(hydro.writeDeviceName) ==>
      flash.blocks[2] == BlockAfterWrite(old(flash.blocks)[2], hydro.deviceName, outcome.clearResult, outcome.storeResult)
    ensures old(hydro.writeDeviceName) && OutcomeOk(outcome) ==>
      flash.blocks[2] == WrittenBlock(hydro.deviceName)
    ensures flash.errors == old(flash.errors) + (if old(hydro.writeDeviceName) then WriteErrors(cb, outcome) else [])
  {
    var pending := hydro.DeviceNameHasBeenUpdated();
    if pending.Some? {
      WriteRecord(flash, Kind.DeviceName, pending.value, cb, outcome);
    }
  }

  /** What the loop writes is what the corrected loads read back: after a pass
      in which every write succeeded, the calibration and plant-info blocks
      load back as the in-memory records, and so does a name not starting
      with the erased byte. */
  method WriteBackThenLoad(flash: FlashStore, hydro: Hydro.HydroState, cb: Option<Callback>)
    requires flash.Valid() && flash.initialized && flash.phase == Idle
    requires hydro.Valid() && hydro.writeCalibration && hydro.writePlantInfo && hydro.writeDeviceName
    requires hydro.calibration.writeCheck == WRITE_CHECK && hydro.plantInfo.writeCheck == WRITE_CHECK
    modifies flash, hydro`writeCalibration, hydro`writePlantInfo, hydro`writeDeviceName
    ensures flash.Valid()
    ensures CalibrationAfterLoadIntended(flash.blocks[0]) == (hydro.calibration, false)
    ensures PlantInfoAfterLoadIntended(flash.blocks[1]) == (hydro.plantInfo, false)
    ensures hydro.deviceName[0] != ERASED ==> DeviceNameAfterLoad(flash.blocks[2]) == (hydro.deviceName, false)
  {
    var ok := WriteOutcome(SUCCESS, SUCCESS);
    WriteBackPass(flash, hydro, cb, ok, ok, ok);
    CalibrationIntendedRoundTrip(hydro.calibration);
    PlantInfoIntendedRoundTrip(hydro.plantInfo);
    if hydro.deviceName[0] != ERASED {
      DeviceNameRoundTrip(hydro.deviceName);
    }
  }
}
