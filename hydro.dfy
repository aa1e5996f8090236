/** The record state manager of src/Ladybug_Hydro.c: the module's static records
    and dirty flags as the fields of one object, each command and poll as a
    method that updates them in place. ADC readings arrive as parameters. */
module Hydro {
  import opened Basics
  import opened HydroLayout
  import opened HydroSpec
  import FlashLayout

  class HydroState {
    /** m_storeCalibrationValues */
    var calibration: StoreCalibrationValues
    /** m_storePlantInfo */
    var plantInfo: StorePlantInfo
    /** m_device_name: DEVNAME_MAX_LEN bytes, not 0-terminated when full */
    var deviceName: seq<byte>
    /** m_measurements */
    var measurements: Measurements
    /** m_write_calibration_values, m_write_plantInfo_values, m_write_device_name */
    var writeCalibration: bool
    var writePlantInfo: bool
    var writeDeviceName: bool

    ghost predicate Valid()
      reads this
    {
      |deviceName| == DEVNAME_MAX_LEN
    }

    /** The statics at power-up: all zero, all flags false. */
    constructor ()
      ensures Valid()
      ensures calibration == ZERO_CALIBRATION_STORE && plantInfo == ZERO_PLANT_INFO_STORE
      ensures deviceName == Fill(0, DEVNAME_MAX_LEN)
      ensures measurements == Measurements([0, 0], 0, 0)
      ensures !writeCalibration && !writePlantInfo && !writeDeviceName
    {
      calibration := ZERO_CALIBRATION_STORE;
      plantInfo := ZERO_PLANT_INFO_STORE;
      deviceName := Fill(0, DEVNAME_MAX_LEN);
      measurements := Measurements([0, 0], 0, 0);
      writeCalibration, writePlantInfo, writeDeviceName := false, false, false;
    }

    /** ladybug_update_calibration_value, with the pH reading (AIN minus VGND)
        and the EC (Vin, Vout) reading supplied by the caller. */
    method UpdateCalibrationValue(command: ControlCommand, solutionValue: int, pHReading: i16, ecReading: I16Pair)
      requires Valid()
      modifies this`calibration, this`writeCalibration
      ensures Valid()
      ensures calibration == old(calibration).(calValues :=
        Calibrated(old(calibration.calValues), command, solutionValue, pHReading, ecReading))
      ensures writeCalibration
    {
      var c := calibration.calValues;
      if command == CalibratePH4 || command == CalibratePH7 {
        if command == CalibratePH4 {
          c := c.(pH4mV := pHReading);
        } else {
          c := c.(pH7mV := pHReading);
        }
      } else {
        if command == CalibrateEC1 {
          c := c.(ec1Solution := ToU16(solutionValue));
          for i := 0 to 2
            invariant c.(ec1mV := old(calibration.calValues.ec1mV))
                   == old(calibration.calValues).(ec1Solution := ToU16(solutionValue))
            invariant forall j :: 0 <= j < i ==> c.ec1mV[j] == ToU16(ecReading[j])
          {
            c := c.(ec1mV := c.ec1mV[i := ToU16(ecReading[i])]);
          }
          assert c.ec1mV == StoredPair(ecReading);
        } else {
          c := c.(ec2Solution := ToU16(solutionValue));
          for i := 0 to 2
            invariant c.(ec2mV := old(calibration.calValues.ec2mV))
                   == old(calibration.calValues).(ec2Solution := ToU16(solutionValue))
            invariant forall j :: 0 <= j < i ==> c.ec2mV[j] == ToU16(ecReading[j])
          {
            c := c.(ec2mV := c.ec2mV[i := ToU16(ecReading[i])]);
          }
          assert c.ec2mV == StoredPair(ecReading);
        }
      }
      calibration := calibration.(calValues := c);
      writeCalibration := true;
    }

    /** ladybug_undo_pH_calibration */
    method UndoPHCalibration(command: ControlCommand, pHCalValue: i16)
      requires Valid()
      modifies this`calibration, this`writeCalibration
      ensures Valid()
      ensures calibration == old(calibration).(calValues := PHUndone(old(calibration.calValues), command, pHCalValue))
      ensures writeCalibration
    {
      if command == UndoPH4 {
        calibration := calibration.(calValues := calibration.calValues.(pH4mV := pHCalValue));
      } else {
        calibration := calibration.(calValues := calibration.calValues.(pH7mV := pHCalValue));
      }
      writeCalibration := true;
    }

    /** ladybug_undo_EC_calibration */
    method UndoECCalibration(command: ControlCommand, ecVin: i16, ecVout: i16)
      requires Valid()
      modifies this`calibration, this`writeCalibration
      ensures Valid()
      ensures calibration == old(calibration).(calValues := ECUndone(old(calibration.calValues), command, ecVin, ecVout))
      ensures writeCalibration
    {
      var c := calibration.calValues;
      if command == UndoEC1 {
        c := c.(ec1mV := c.ec1mV[0 := ToU16(ecVin)]);
        c := c.(ec1mV := c.ec1mV[1 := ToU16(ecVout)]);
      } else {
        c := c.(ec2mV := c.ec2mV[0 := ToU16(ecVin)]);
        c := c.(ec2mV := c.ec2mV[1 := ToU16(ecVout)]);
      }
      calibration := calibration.(calValues := c);
      writeCalibration := true;
    }

    /** reset_pH_calibration_values (does not touch the flag) */
    method ResetPHCalibrationValues()
      requires Valid()
      modifies this`calibration
      ensures Valid()
      ensures calibration == old(calibration).(calValues := PHReset(old(calibration.calValues)))
    {
      calibration := calibration.(calValues := calibration.calValues.(pH4mV := PH4_IDEAL_MV));
      calibration := calibration.(calValues := calibration.calValues.(pH7mV := PH7_IDEAL_MV));
    }

    /** reset_EC_calibration_values (does not touch the flag) */
    method ResetECCalibrationValues()
      requires Valid()
      modifies this`calibration
      ensures Valid()
      ensures calibration == old(calibration).(calValues := ECReset(old(calibration.calValues)))
    {
      var c := calibration.calValues;
      for i := 0 to 2
        invariant c.(ec1mV := old(calibration.calValues.ec1mV), ec2mV := old(calibration.calValues.ec2mV))
               == old(calibration.calValues)
        invariant c.ec1mV[..i] == Fill(0, i) && c.ec2mV[..i] == Fill(0, i)
        invariant c.ec1mV[i..] == old(calibration.calValues.ec1mV)[i..]
        invariant c.ec2mV[i..] == old(calibration.calValues.ec2mV)[i..]
      {
        c := c.(ec1mV := c.ec1mV[i := 0]);
        c := c.(ec2mV := c.ec2mV[i := 0]);
      }
      assert c.ec1mV == [0, 0] && c.ec2mV == [0, 0];
      c := c.(ec1Solution := 0);
      c := c.(ec2Solution := 0);
      calibration := calibration.(calValues := c);
    }

    /** reset_all_calibration_values */
    method ResetAllCalibrationValues()
      requires Valid()
      modifies this`calibration, this`writeCalibration
      ensures Valid()
      ensures calibration == old(calibration).(calValues := DEFAULT_CALIBRATION)
      ensures writeCalibration
    {
      ResetPHCalibrationValues();
      ResetECCalibrationValues();
      ResetAllIsDefault(old(calibration.calValues));
      writeCalibration := true;
    }

    /** ladybug_reset_calibration_values */
    method ResetCalibrationValues(command: ControlCommand)
      requires Valid()
      modifies this`calibration, this`writeCalibration
      ensures Valid()
      ensures calibration == old(calibration).(calValues := CalibrationReset(old(calibration.calValues), command))
      ensures writeCalibration
    {
      if command == ResetPHCalValues {
        ResetPHCalibrationValues();
      } else {
        ResetECCalibrationValues();
      }
      writeCalibration := true;
    }

    /** ladybug_get_calibrationValues, after the block store has delivered
        `payload` into the calibration values (the bytes that fit the field). */
    method LoadCalibration(payload: seq<byte>)
      requires Valid() && |payload| == CALIBRATION_VALUES_SIZE
      modifies this`calibration, this`writeCalibration
      ensures Valid()
      ensures calibration == CalibrationAfterLoad(old(calibration), payload).0
      ensures writeCalibration == (old(writeCalibration) || CalibrationAfterLoad(old(calibration), payload).1)
    {
      calibration := calibration.(calValues := DeserializeCalibrationValues(payload));
      if calibration.writeCheck != WRITE_CHECK {
        calibration := calibration.(writeCheck := WRITE_CHECK);
        ResetAllCalibrationValues();
      }
    }

    /** ladybug_get_plantInfo, after the block store has delivered `payload`
        into the plant-info bytes. */
    method LoadPlantInfo(payload: seq<byte>)
      requires Valid() && |payload| == PLANT_INFO_SIZE
      modifies this`plantInfo, this`writePlantInfo
      ensures Valid()
      ensures plantInfo == PlantInfoAfterLoad(old(plantInfo), payload).0
      ensures writePlantInfo == (old(writePlantInfo) || PlantInfoAfterLoad(old(plantInfo), payload).1)
    {
      plantInfo := plantInfo.(plantChar := PlantInfoOfBytes(payload));
      if plantInfo.writeCheck != WRITE_CHECK {
        plantInfo := DeserializeStorePlantInfo(Fill(UNKNOWN_CHAR, FlashLayout.BLOCK_SIZE));
        plantInfo := plantInfo.(writeCheck := WRITE_CHECK);
        writePlantInfo := true;
      }
    }

    /** ladybug_get_device_name, given the 32-byte stack buffer as the block
        read left it. */
    method LoadDeviceName(buffer: seq<byte>)
      requires Valid() && |buffer| == FlashLayout.BLOCK_SIZE
      modifies this`deviceName, this`writeDeviceName
      ensures Valid()
      ensures deviceName == DeviceNameAfterLoad(buffer).0
      ensures writeDeviceName == (old(writeDeviceName) || DeviceNameAfterLoad(buffer).1)
    {
      var b := buffer;
      if b[0] == FlashLayout.ERASED {
        b := DEFAULT_DEVICE_NAME + [0] + b[4..];
        writeDeviceName := true;
      }
      deviceName := b[..DEVNAME_MAX_LEN];
    }

    /** ladybug_write_device_name. The source computes a clamp of `len` and
        discards it; its documentation requires len <= DEVNAME_MAX_LEN. */
    method WriteDeviceName(name: seq<byte>, len: nat)
      requires Valid()
      requires len <= DEVNAME_MAX_LEN && len <= |name|
      modifies this`deviceName, this`writeDeviceName
      ensures Valid()
      ensures deviceName == NameCopied(old(deviceName), name, len)
      ensures writeDeviceName
    {
      for i := 0 to len
        invariant |deviceName| == DEVNAME_MAX_LEN
        invariant deviceName[..i] == name[..i]
        invariant deviceName[i..] == old(deviceName)[i..]
      {
        deviceName := deviceName[i := name[i]];
      }
      writeDeviceName := true;
    }

    /** ladybug_get_measurements, with the readings supplied by the caller. */
    method GetMeasurements(pHReading: i16, ecReading: I16Pair)
      requires Valid()
      modifies this`measurements
      ensures Valid()
      ensures measurements.pHmV == pHReading && measurements.ecmV == ecReading
      ensures measurements.unused == old(measurements.unused)
    {
      measurements := measurements.(pHmV := pHReading);
      measurements := measurements.(ecmV := ecReading);
    }

    /** ladybug_there_are_calibration_values_to_write: reports and clears the
        flag, handing over the sentinel-prefixed record when it was set. */
    method CalibrationValuesToWrite() returns (pending: Option<StoreCalibrationValues>)
      requires Valid()
      modifies this`writeCalibration
      ensures Valid()
      ensures pending.Some? == old(writeCalibration)
      ensures pending.Some? ==> pending.value == calibration
      ensures !writeCalibration
    {
      if writeCalibration {
        writeCalibration := false;
        return Some(calibration);
      }
      return None;
    }

    /** ladybug_there_are_plantInfo_values_to_write */
    method PlantInfoValuesToWrite() returns (pending: Option<StorePlantInfo>)
      requires Valid()
      modifies this`writePlantInfo
      ensures Valid()
      ensures pending.Some? == old(writePlantInfo)
      ensures pending.Some? ==> pending.value == plantInfo
      ensures !writePlantInfo
    {
      if writePlantInfo {
        writePlantInfo := false;
        return Some(plantInfo);
      }
      return None;
    }

    /** ladybug_the_device_name_has_been_updated */
    method DeviceNameHasBeenUpdated() returns (pending: Option<seq<byte>>)
      requires Valid()
      modifies this`writeDeviceName
      ensures Valid()
      ensures pending.Some? == old(writeDeviceName)
      ensures pending.Some? ==> pending.value == deviceName
      ensures !writeDeviceName
    {
      if writeDeviceName {
        writeDeviceName := false;
        return Some(deviceName);
      }
      return None;
    }
  }

  /** A mutation followed by two polls: the first poll hands the record over,
      the second finds nothing, and the flag is clear afterwards. */
  method PollAfterMutation(h: HydroState, command: ControlCommand, value: i16)
    returns (first: Option<StoreCalibrationValues>, second: Option<StoreCalibrationValues>)
    requires h.Valid()
    modifies h
    ensures h.Valid()
    ensures first == Some(h.calibration)
    ensures second == None
    ensures !h.writeCalibration
    ensures h.calibration.calValues == PHUndone(old(h.calibration.calValues), command, value)
  {
    h.UndoPHCalibration(command, value);
    first := h.CalibrationValuesToWrite();
    second := h.CalibrationValuesToWrite();
  }
}
