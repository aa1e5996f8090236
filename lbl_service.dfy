/** The Ladybug BLE service of src/ble_lbl_service.c: the control-write decoder
    (pure), and the service object whose connection handle, notifications and
    advertised name change as BLE events arrive. The characteristic
    notifications are recorded as events; the BLE stack itself is not modelled. */
module LblService {
  import opened Basics
  import opened HydroLayout
  import opened HydroSpec
  import Hydro

  /** BLE_CONN_HANDLE_INVALID of the BLE stack. */
  const BLE_CONN_HANDLE_INVALID: u16 := 0xFFFF

  /** What a write to the control characteristic asks for. */
  datatype ControlAction =
    | ResetFamily(command: ControlCommand)
    | CalibratePoint(command: ControlCommand, solutionValue: int)
    | UndoPHPoint(command: ControlCommand, mV: i16)
    | UndoECPoint(command: ControlCommand, vin: i16, vout: i16)
    | SendMeasurements
    | SendBatteryLevel
    | RenameDevice(name: seq<byte>, len: nat)
    | UnknownControl

  /** How many bytes of the write's buffer on_write reads for a write of
      `len` bytes whose command byte is `code`. */
  function ReadLength(code: byte, len: nat): (n: nat)
    ensures n >= 1
  {
    var c := CommandOfCode(code);
    if c == Some(CalibrateEC1) || c == Some(CalibrateEC2) || c == Some(UndoPH4) || c == Some(UndoPH7) then 3
    else if c == Some(UndoEC1) || c == Some(UndoEC2) then 5
    else if c == Some(UpdateDeviceName) then len + 1
    else 1
  }

  /** The write carries its command byte and the bytes on_write reads exist. */
  predicate Readable(data: seq<byte>, len: nat)
  {
    1 <= len && 1 <= |data| && ReadLength(data[0], len) <= |data|
  }

  /** The decoding half of on_write: the command is data[0]; the EC solution
      is the little-endian uint16 at data[1..2]; undo values are little-endian
      int16s at data[1..2] and data[3..4]; a new device name is the `len`
      bytes from data[1]. */
  function DecodeControlWrite(data: seq<byte>, len: nat): (a: ControlAction)
    requires Readable(data, len)
    ensures a.UnknownControl? <==> CommandOfCode(data[0]).None?
    ensures a.RenameDevice? <==> CommandOfCode(data[0]) == Some(UpdateDeviceName)
    ensures CommandOfCode(data[0]) == Some(UpdateDeviceName) ==> a == RenameDevice(data[1..len + 1], len)
  {
    match CommandOfCode(data[0])
    case None => UnknownControl
    case Some(c) =>
      if c == ResetPHCalValues || c == ResetECCalValues then ResetFamily(c)
      else if c == CalibratePH4 || c == CalibratePH7 then CalibratePoint(c, 0)
      else if c == CalibrateEC1 || c == CalibrateEC2 then CalibratePoint(c, DecodeU16(data[1], data[2]))
      else if c == UndoPH4 || c == UndoPH7 then UndoPHPoint(c, DecodeI16(data[1], data[2]))
      else if c == UndoEC1 || c == UndoEC2 then UndoECPoint(c, DecodeI16(data[1], data[2]), DecodeI16(data[3], data[4]))
      else if c == UpdatePHAndEC then SendMeasurements
      else if c == UpdateBatteryLevel then SendBatteryLevel
      else RenameDevice(data[1..len + 1], len)
  }

  /** Actions a client can express with a fixed-size control write: each
      command with the arguments its family takes. */
  predicate WellFormed(a: ControlAction)
  {
    match a
    case ResetFamily(c) => c == ResetPHCalValues || c == ResetECCalValues
    case CalibratePoint(c, v) =>
      ((c == CalibratePH4 || c == CalibratePH7) && v == 0)
      || ((c == CalibrateEC1 || c == CalibrateEC2) && 0 <= v < 0x1_0000)
    case UndoPHPoint(c, _) => c == UndoPH4 || c == UndoPH7
    case UndoECPoint(c, _, _) => c == UndoEC1 || c == UndoEC2
    case SendMeasurements => true
    case SendBatteryLevel => true
    case RenameDevice(_, _) => false
    case UnknownControl => false
  }

  /** The control write a client sends for an action (the client's side of
      the protocol). */
  function EncodeControl(a: ControlAction): (s: seq<byte>)
    requires WellFormed(a)
    ensures 1 <= |s| <= 5
    ensures CommandOfCode(s[0]).Some?
  {
    match a
    case ResetFamily(c) => [CommandCode(c)]
    case CalibratePoint(c, v) =>
      if c == CalibratePH4 || c == CalibratePH7 then [CommandCode(c)] else [CommandCode(c)] + EncodeU16(v)
    case UndoPHPoint(c, v) => [CommandCode(c)] + EncodeI16(v)
    case UndoECPoint(c, vin, vout) => [CommandCode(c)] + EncodeI16(vin) + EncodeI16(vout)
    case SendMeasurements => [CommandCode(UpdatePHAndEC)]
    case SendBatteryLevel => [CommandCode(UpdateBatteryLevel)]
  }

  /** Every fixed-size action survives the trip client -> control write ->
      on_write. */
  lemma {:induction false} ControlRoundTrip(a: ControlAction)
    requires WellFormed(a)
    ensures Readable(EncodeControl(a), |EncodeControl(a)|)
    ensures DecodeControlWrite(EncodeControl(a), |EncodeControl(a)|) == a
  {
    match a
    case ResetFamily(c) =>
      CommandCodeRoundTrip(c);
      assert EncodeControl(a) == [CommandCode(c)];
    case CalibratePoint(c, v) => CalibrateRoundTrip(c, v);
    case UndoPHPoint(c, v) => UndoPHRoundTrip(c, v);
    case UndoECPoint(c, vin, vout) => UndoECRoundTrip(c, vin, vout);
    case SendMeasurements => CommandCodeRoundTrip(UpdatePHAndEC);
    case SendBatteryLevel => CommandCodeRoundTrip(UpdateBatteryLevel);
  }

  lemma {:induction false} CalibrateRoundTrip(c: ControlCommand, v: int)
    requires WellFormed(CalibratePoint(c, v))
    ensures var s := EncodeControl(CalibratePoint(c, v));
      Readable(s, |s|) && DecodeControlWrite(s, |s|) == CalibratePoint(c, v)
  {
    var s := EncodeControl(CalibratePoint(c, v));
    CommandCodeRoundTrip(c);
    if c == CalibrateEC1 || c == CalibrateEC2 {
      var e := EncodeU16(v);
      assert s == [CommandCode(c), e[0], e[1]];
      U16RoundTrip(v);
    } else {
      assert s == [CommandCode(c)];
    }
  }

  lemma {:induction false} UndoPHRoundTrip(c: ControlCommand, v: i16)
    requires WellFormed(UndoPHPoint(c, v))
    ensures var s := EncodeControl(UndoPHPoint(c, v));
      Readable(s, |s|) && DecodeControlWrite(s, |s|) == UndoPHPoint(c, v)
  {
    var s := EncodeControl(UndoPHPoint(c, v));
    CommandCodeRoundTrip(c);
    var e := EncodeI16(v);
    assert s == [CommandCode(c), e[0], e[1]];
    I16RoundTrip(v);
  }

  lemma {:induction false} UndoECRoundTrip(c: ControlCommand, vin: i16, vout: i16)
    requires WellFormed(UndoECPoint(c, vin, vout))
    ensures var s := EncodeControl(UndoECPoint(c, vin, vout));
      Readable(s, |s|) && DecodeControlWrite(s, |s|) == UndoECPoint(c, vin, vout)
  {
    var s := EncodeControl(UndoECPoint(c, vin, vout));
    CommandCodeRoundTrip(c);
    var e1, e2 := EncodeI16(vin), EncodeI16(vout);
    assert s == [CommandCode(c), e1[0], e1[1], e2[0], e2[1]];
    I16RoundTrip(vin);
    I16RoundTrip(vout);
  }

  /** Conversely, a write with a known fixed-size command decodes to an action
      whose encoding is exactly the bytes on_write read (for pH calibration,
      only the command byte matters). */
  lemma {:induction false} ControlBytesRoundTrip(data: seq<byte>, len: nat)
    requires Readable(data, len)
    requires CommandOfCode(data[0]).Some? && CommandOfCode(data[0]) != Some(UpdateDeviceName)
    ensures WellFormed(DecodeControlWrite(data, len))
    ensures EncodeControl(DecodeControlWrite(data, len)) == data[..|EncodeControl(DecodeControlWrite(data, len))|]
  {
    var c := CommandOfCode(data[0]).value;
    var a := DecodeControlWrite(data, len);
    assert CommandCode(c) == data[0];
    if c == ResetPHCalValues || c == ResetECCalValues {
      assert a == ResetFamily(c);
    } else if c == CalibratePH4 || c == CalibratePH7 {
      assert a == CalibratePoint(c, 0);
    } else if c == CalibrateEC1 || c == CalibrateEC2 {
      var v := DecodeU16(data[1], data[2]);
      assert a == CalibratePoint(c, v);
      assert EncodeControl(a) == [data[0]] + [data[1], data[2]];
      assert data[..3] == [data[0]] + [data[1], data[2]];
    } else if c == UndoPH4 || c == UndoPH7 {
      var v := DecodeI16(data[1], data[2]);
      assert a == UndoPHPoint(c, v);
      I16BytesRoundTrip(data[1], data[2]);
      assert EncodeControl(a) == [data[0]] + [data[1], data[2]];
      assert data[..3] == [data[0]] + [data[1], data[2]];
    } else if c == UndoEC1 || c == UndoEC2 {
      var vin, vout := DecodeI16(data[1], data[2]), DecodeI16(data[3], data[4]);
      assert a == UndoECPoint(c, vin, vout);
      I16BytesRoundTrip(data[1], data[2]);
      I16BytesRoundTrip(data[3], data[4]);
      assert EncodeControl(a) == [data[0]] + [data[1], data[2]] + [data[3], data[4]];
      assert data[..5] == [data[0]] + [data[1], data[2]] + [data[3], data[4]];
    } else if c == UpdatePHAndEC {
      assert a == SendMeasurements;
    } else {
      assert c == UpdateBatteryLevel;
      assert a == SendBatteryLevel;
    }
  }

  /** Actions that go through the record state manager's calibration commands. */
  predicate TouchesCalibration(a: ControlAction)
  {
    a.ResetFamily? || a.CalibratePoint? || a.UndoPHPoint? || a.UndoECPoint?
  }

  /** The calibration values after the action, given the pH and EC readings
      the ADC delivers during it. Only calibration commands change them, and
      each changes only the point or family its command names. */
  function CalibrationEffect(c: CalibrationValues, a: ControlAction, pHReading: i16, ecReading: I16Pair): (r: CalibrationValues)
    ensures !TouchesCalibration(a) ==> r == c
    ensures a.CalibratePoint? ==>
      forall p :: p != CalibratedPoint(a.command) ==> PointOf(r, p) == PointOf(c, p)
    ensures a.ResetFamily? && a.command == ResetPHCalValues ==>
      PointOf(r, EC1) == PointOf(c, EC1) && PointOf(r, EC2) == PointOf(c, EC2)
    ensures a.ResetFamily? && a.command != ResetPHCalValues ==>
      PointOf(r, PH4) == PointOf(c, PH4) && PointOf(r, PH7) == PointOf(c, PH7)
    ensures a.UndoPHPoint? ==>
      PointOf(r, EC1) == PointOf(c, EC1) && PointOf(r, EC2) == PointOf(c, EC2)
    ensures a.UndoECPoint? ==>
      && PointOf(r, PH4) == PointOf(c, PH4) && PointOf(r, PH7) == PointOf(c, PH7)
      && r.ec1Solution == c.ec1Solution && r.ec2Solution == c.ec2Solution
  {
    match a
    case ResetFamily(cmd) => CalibrationReset(c, cmd)
    case CalibratePoint(cmd, v) => Calibrated(c, cmd, v, pHReading, ecReading)
    case UndoPHPoint(cmd, v) => PHUndone(c, cmd, v)
    case UndoECPoint(cmd, vin, vout) => ECUndone(c, cmd, vin, vout)
    case _ => c
  }

  datatype Characteristic = CalibrationChar | MeasurementChar | BatteryLevelChar

  /** A notification handed to the BLE stack for the client on `connHandle`. */
  datatype Notification = Notification(characteristic: Characteristic, connHandle: u16, payload: seq<byte>)

  /** The events ble_lbl_on_ble_evt dispatches on. */
  datatype BleEvent =
    | Connected(connHandle: u16)
    | Disconnected
    | ConnParamUpdate
    | GattsWrite(handle: u16, data: seq<byte>, len: nat)
    | OtherEvent

  class Service {
    /** p_lbl->conn_handle */
    var connHandle: u16
    /** The value handle of the control characteristic. */
    const controlHandle: u16
    /** The record state manager the commands act on. */
    const hydro: Hydro.HydroState
    /** Notifications sent, in order. */
    var notifications: seq<Notification>
    /** The device name the BLE stack advertises. */
    var gapName: seq<byte>

    ghost predicate Valid()
      reads this, hydro
    {
      hydro.Valid()
    }

    /** The part of ble_lbl_init that sets service state: no connection yet. */
    constructor (h: Hydro.HydroState, controlValueHandle: u16, name: seq<byte>)
      requires h.Valid()
      ensures Valid()
      ensures hydro == h && controlHandle == controlValueHandle
      ensures connHandle == BLE_CONN_HANDLE_INVALID && notifications == [] && gapName == name
    {
      hydro := h;
      controlHandle := controlValueHandle;
      connHandle := BLE_CONN_HANDLE_INVALID;
      notifications := [];
      gapName := name;
    }

    /** on_connect */
    method OnConnect(handle: u16)
      modifies this`connHandle
      ensures connHandle == handle
    {
      connHandle := handle;
    }

    /** on_disconnect */
    method OnDisconnect()
      modifies this`connHandle
      ensures connHandle == BLE_CONN_HANDLE_INVALID
    {
      connHandle := BLE_CONN_HANDLE_INVALID;
    }

    /** update_device_name: copies `len` bytes to the stack, gives the BLE
        stack the first len-1 of them, and hands all `len` to the record state
        manager to persist. */
    method SetDeviceName(name: seq<byte>, len: nat)
      requires Valid()
      requires 1 <= len <= DEVNAME_MAX_LEN && len <= |name|
      modifies this`gapName, hydro`deviceName, hydro`writeDeviceName
      ensures Valid()
      ensures gapName == name[..len - 1]
      ensures hydro.deviceName == NameCopied(old(hydro.deviceName), name, len)
      ensures hydro.writeDeviceName
    {
      var copy: seq<byte> := [];
      for i := 0 to len
        invariant copy == name[..i]
      {
        copy := copy + [name[i]];
      }
      gapName := copy[..len - 1];
      hydro.WriteDeviceName(name, len);
    }

    /** What the switch of on_write does for action `a`, from the state before
        it to the state after: the calibration command's effect on the
        calibration values (marked for write-back), the rename of the device,
        the measurement refresh, and the one notification on the matching
        characteristic; the plant info is never touched. */
    twostate predicate ControlApplied(a: ControlAction, pHReading: i16, ecReading: I16Pair, batteryMilliVolts: u32)
      reads this, hydro
    {
      && hydro.calibration == old(hydro.calibration).(calValues :=
           CalibrationEffect(old(hydro.calibration.calValues), a, pHReading, ecReading))
      && hydro.writeCalibration == (old(hydro.writeCalibration) || TouchesCalibration(a))
      && hydro.plantInfo == old(hydro.plantInfo) && hydro.writePlantInfo == old(hydro.writePlantInfo)
      && (a.RenameDevice? ==>
            && 1 <= a.len <= |old(hydro.deviceName)| && a.len <= |a.name|
            && hydro.deviceName == NameCopied(old(hydro.deviceName), a.name, a.len)
            && hydro.writeDeviceName && gapName == a.name[..a.len - 1])
      && (!a.RenameDevice? ==>
            && hydro.deviceName == old(hydro.deviceName) && hydro.writeDeviceName == old(hydro.writeDeviceName)
            && gapName == old(gapName))
      && (a.SendMeasurements? ==>
            hydro.measurements == old(hydro.measurements).(pHmV := pHReading, ecmV := ecReading))
      && (!a.SendMeasurements? ==> hydro.measurements == old(hydro.measurements))
      && notifications == old(notifications) +
           (if TouchesCalibration(a) then
              [Notification(CalibrationChar, connHandle, SerializeCalibrationValues(hydro.calibration.calValues))]
            else if a.SendMeasurements? then
              [Notification(MeasurementChar, connHandle, SerializeMeasurements(hydro.measurements))]
            else if a.SendBatteryLevel? then
              [Notification(BatteryLevelChar, connHandle, EncodeU16(batteryMilliVolts % 0x1_0000))]
            else [])
    }

    /** on_write: only a write to the control characteristic's value handle is
        decoded; each command runs its record-state-manager operation (with the
        readings the ADC delivers) and notifies the matching characteristic. An
        unknown command changes nothing. */
    method OnWrite(handle: u16, data: seq<byte>, len: nat, pHReading: i16, ecReading: I16Pair, batteryMilliVolts: u32)
      requires Valid()
      requires handle == controlHandle ==> Readable(data, len)
      requires handle == controlHandle && Readable(data, len) && CommandOfCode(data[0]) == Some(UpdateDeviceName) ==>
        len <= DEVNAME_MAX_LEN
      modifies this`notifications, this`gapName, hydro
      ensures Valid()
      ensures handle != controlHandle ==>
        unchanged(hydro) && notifications == old(notifications) && gapName == old(gapName)
      ensures handle == controlHandle ==>
        && ControlApplied(DecodeControlWrite(data, len), pHReading, ecReading, batteryMilliVolts)
        && (DecodeControlWrite(data, len).RenameDevice? ==>
              hydro.deviceName == NameCopied(old(hydro.deviceName), data[1..len + 1], len) && gapName == data[1..len])
    {
      if handle != controlHandle {
        return;
      }
      var a := DecodeControlWrite(data, len);
      if a.RenameDevice? {
        assert a.name[..a.len - 1] == data[1..len];
      }
      ApplyControl(a, pHReading, ecReading, batteryMilliVolts);
    }

    /** The switch of on_write, on the decoded action: each command runs its
        record-state-manager operation and notifies the matching
        characteristic. */
    method ApplyControl(a: ControlAction, pHReading: i16, ecReading: I16Pair, batteryMilliVolts: u32)
      requires Valid()
      requires a.RenameDevice? ==> 1 <= a.len <= DEVNAME_MAX_LEN && a.len <= |a.name|
      modifies this`notifications, this`gapName, hydro
      ensures Valid()
      ensures ControlApplied(a, pHReading, ecReading, batteryMilliVolts)
    {
      match a
      case ResetFamily(cmd) =>
        hydro.ResetCalibrationValues(cmd);
        NotifyCalibration();
      case CalibratePoint(cmd, v) =>
        hydro.UpdateCalibrationValue(cmd, v, pHReading, ecReading);
        NotifyCalibration();
      case UndoPHPoint(cmd, v) =>
        hydro.UndoPHCalibration(cmd, v);
        NotifyCalibration();
      case UndoECPoint(cmd, vin, vout) =>
        hydro.UndoECCalibration(cmd, vin, vout);
        NotifyCalibration();
      case SendMeasurements =>
        hydro.GetMeasurements(pHReading, ecReading);
        notifications := notifications + [Notification(MeasurementChar, connHandle, SerializeMeasurements(hydro.measurements))];
      case SendBatteryLevel =>
        notifications := notifications + [Notification(BatteryLevelChar, connHandle, EncodeU16(batteryMilliVolts % 0x1_0000))];
      case RenameDevice(name, n) =>
        SetDeviceName(name, n);
      case UnknownControl =>
    }

    /** update_calibration_characteristic: notifies the 16 calibration bytes. */
    method NotifyCalibration()
      modifies this`notifications
      ensures notifications == old(notifications) +
        [Notification(CalibrationChar, connHandle, SerializeCalibrationValues(hydro.calibration.calValues))]
    {
      notifications := notifications + [Notification(CalibrationChar, connHandle, SerializeCalibrationValues(hydro.calibration.calValues))];
    }

    /** ble_lbl_on_ble_evt: connection events update the handle, writes go to
        on_write (a write to the control value handle has the effect of its
        decoded command, any other write none), everything else is ignored. */
    method OnBleEvent(evt: BleEvent, pHReading: i16, ecReading: I16Pair, batteryMilliVolts: u32)
      requires Valid()
      requires evt.GattsWrite? && evt.handle == controlHandle ==> Readable(evt.data, evt.len)
      requires (evt.GattsWrite? && evt.handle == controlHandle && Readable(evt.data, evt.len)
                && CommandOfCode(evt.data[0]) == Some(UpdateDeviceName)) ==> evt.len <= DEVNAME_MAX_LEN
      modifies this`connHandle, this`notifications, this`gapName, hydro
      ensures Valid()
      ensures evt.Connected? ==> connHandle == evt.connHandle
      ensures evt.Disconnected? ==> connHandle == BLE_CONN_HANDLE_INVALID
      ensures !evt.Connected? && !evt.Disconnected? ==> connHandle == old(connHandle)
      ensures !evt.GattsWrite? ==> unchanged(hydro) && notifications == old(notifications) && gapName == old(gapName)
      ensures evt.GattsWrite? && evt.handle != controlHandle ==>
        unchanged(hydro) && notifications == old(notifications) && gapName == old(gapName)
      ensures evt.GattsWrite? && evt.handle == controlHandle ==>
        ControlApplied(DecodeControlWrite(evt.data, evt.len), pHReading, ecReading, batteryMilliVolts)
    {
      match evt
      case Connected(h) => OnConnect(h);
      case Disconnected => OnDisconnect();
      case GattsWrite(h, data, len) => OnWrite(h, data, len, pHReading, ecReading, batteryMilliVolts);
      case _ =>
    }
  }

  /** on_write passes the whole write length to update_device_name, counting
      the command byte. For a client that sends the name with its terminating
      0 (the convention update_device_name documents), the advertised name
      keeps the 0, and the persisted copy takes one byte from beyond the
      write; after a restart the name's length is one less than it was. */
  lemma {:induction false} RenameAsWritten(name: seq<byte>, beyond: byte)
    requires |name| + 2 <= DEVNAME_MAX_LEN
    requires forall i :: 0 <= i < |name| ==> name[i] != 0
    ensures var data := [CommandCode(UpdateDeviceName)] + name + [0] + [beyond];
      var len := |name| + 2;
      && Readable(data, len)
      && DecodeControlWrite(data, len) == RenameDevice(name + [0] + [beyond], len)
      && data[1..len] == name + [0]
      && NameLength(name + [0] + [beyond]) == |name| != |data[1..len]|
  {
    var data := [CommandCode(UpdateDeviceName)] + name + [0] + [beyond];
    var len := |name| + 2;
    CommandCodeRoundTrip(UpdateDeviceName);
    assert data[1..len + 1] == name + [0] + [beyond];
    assert data[1..len] == name + [0];
    var s := name + [0] + [beyond];
    assert s[|name|] == 0;
  }

  /** The decoding on_write evidently intends for a rename: the name with its
      terminator is the write minus its command byte, and the length passed on
      counts that name and terminator. */
  function RenameIntended(data: seq<byte>, len: nat): (a: ControlAction)
    requires 2 <= len <= |data|
    ensures a.RenameDevice? && a.len == len - 1 && a.name == data[1..len]
  {
    RenameDevice(data[1..len], len - 1)
  }

  /** With the intended decoding, the name comes only from the bytes written,
      the advertised name is the name without its terminator, and the length
      computed after a restart from the persisted copy is the same. */
  lemma {:induction false} RenameIntendedConsistent(name: seq<byte>, old_name: seq<byte>)
    requires |name| + 1 <= DEVNAME_MAX_LEN && |old_name| == DEVNAME_MAX_LEN
    requires forall i :: 0 <= i < |name| ==> name[i] != 0
    ensures var data := [CommandCode(UpdateDeviceName)] + name + [0];
      var a := RenameIntended(data, |data|);
      && a.name == name + [0]
      && a.name[..a.len - 1] == name
      && NameLength(NameCopied(old_name, a.name, a.len)) == |name|
  {
    var data := [CommandCode(UpdateDeviceName)] + name + [0];
    assert data[1..|data|] == name + [0];
    var stored := NameCopied(old_name, name + [0], |name| + 1);
    assert stored[|name|] == 0;
  }
}
