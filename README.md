# LadybugLiteBlue firmware: persistent state, in Dafny

The Ladybug Lite Blue is an nRF51822 hydroponics sensor. A phone talks to it
over Bluetooth Low Energy. It measures pH and EC (electrical conductivity) with
the chip's ADC. It keeps three records across restarts, each in its own
32-byte flash block:
- the calibration values (two pH points and two EC points);
- the plant type and growth stage;
- the advertised device name.

This project models that persistent-state subsystem and proves properties of
it. It has two layers:
- **The record state manager** (`Hydro.HydroState`, from `src/Ladybug_Hydro.c`).
  It holds the three in-memory records and their dirty flags. Calibration
  commands change one point or reset one family. Loads install defaults when
  the sentinel `write_check` is wrong. The "anything to write?" polls report
  a flag and clear it.
- **The guarded block store** (`Flash.FlashStore`, from `src/Ladybug_Flash.c`).
  It maps each record kind to a block, fixed at init. A write is a clear of
  the whole block followed by a store of the record at offset 0. A read loads
  the whole block. Every request sets a wait flag and arms a one-shot timer,
  then spins until the storage service's completion handler clears the flag.

Around them sit:
- the record layouts and constants (`HydroLayout`, `FlashLayout`);
- the BLE service's control-write decoder and connection state (`LblService`);
- start-up and one pass of the lazy write-back loop of `main` (`MainLoop`);
- the ADC's integer count-to-millivolt conversion and channel mask (`Adc`).

Modules and files:

| file | module | models |
|---|---|---|
| `basics.dfy` | `Basics` | C integer widths, truncating conversions, little-endian encodings |
| `flash_layout.dfy` | `FlashLayout` | `include/Ladybug_flash.h` |
| `hydro_layout.dfy` | `HydroLayout` | `include/Ladybug_Hydro.h`: each struct as a datatype with its byte image |
| `hydro_spec.dfy` | `HydroSpec` | the record state manager's operations as functions on record values |
| `hydro.dfy` | `Hydro` | the record state manager as a class over its statics, proved against `HydroSpec` |
| `flash.dfy` | `Flash` | the block store as a class with explicit completion and timeout events |
| `lbl_service.dfy` | `LblService` | `on_write` decoding and dispatch, connect/disconnect, `update_device_name` |
| `main_loop.dfy` | `MainLoop` | `main`'s start-up order and one write-back pass |
| `adc.dfy` | `Adc` | `ADC_RESULT_IN_MILLI_VOLTS` and the AIN select mask |

How the modelling maps onto the C code:
- **Busy-waits.** A busy-wait on the wait flag becomes the precondition
  `!waitFlag` on the step after it (`ReadFinish`, `WriteStore`, `WriteFinish`).
- **Completion event.** The storage service's completion is the event method
  `FlashHandler(result)`.
- **Timeout event.** The timer's expiry is `TimeoutHandler()`. It reports
  through the caller's callback, or sets `faulted` when no callback was
  recorded (the C code then calls through a NULL pointer). As in the source,
  it leaves the wait flag set. A spinning caller therefore keeps spinning, and no timeout bound is
  claimed.
- **Complete sequences.** `Read` and `Write` run a whole request with given
  completion results and no timeout.
- **Error handling.** `app_error_handler` only logs and returns, so error
  codes are appended to the store's `errors` list. `WriteBegin` shows this: a
  missing buffer or callback, a zero count and an unmapped kind are all
  logged in one call, and a missing callback alone does not stop the write.
- **Readings.** ADC readings enter the record manager's methods as
  parameters.
- **Notifications.** Characteristic notifications are recorded as
  `Notification` values.

## Model

| member | source | states |
|---|---|---|
| `Basics.ToU16` | src/Ladybug_Hydro.c:151-159 | storing an int into a `uint16_t` keeps it modulo 2^16 and leaves values in range unchanged |
| `Basics.ToI16` | src/ble_lbl_service.c:198 | storing into an `int16_t` keeps the value modulo 2^16 and leaves values in range unchanged |
| `Basics.DecodeU16` | src/ble_lbl_service.c:182 | `lo \| hi << 8` is the value whose little-endian bytes are exactly `[lo, hi]` |
| `Basics.U16RoundTrip` | src/ble_lbl_service.c:182 | decoding the little-endian bytes of a `uint16_t` gives it back |
| `Basics.I16RoundTrip` | src/ble_lbl_service.c:198 | decoding the two's-complement little-endian bytes of an `int16_t` gives it back |
| `Basics.I16BytesRoundTrip` | src/ble_lbl_service.c:206-207 | any two bytes are the encoding of the `int16_t` they decode to |
| `Basics.U32RoundTrip` | include/Ladybug_Hydro.h:61-64 | a 32-bit sentinel survives its 4-byte little-endian encoding |
| `Basics.U32BytesRoundTrip` | include/Ladybug_Hydro.h:61-64 | any 4 bytes are the encoding of the value they decode to |
| `FlashLayout.KindOfCode` | include/Ladybug_flash.h:20-25 | exactly the codes 0..3 name a kind, and the kind's code is the one decoded |
| `FlashLayout.KindCodeRoundTrip` | include/Ladybug_flash.h:20-25 | the four kinds `hydroValues`, `plantInfo`, `deviceName`, `calibrationValues` have codes 0..3 in that order |
| `FlashLayout.WrittenBlock` | include/Ladybug_flash.h:16 | a written block is `BLOCK_SIZE` bytes: the data at offset 0, then 0xFF |
| `HydroLayout.CommandOfCode` | include/Ladybug_Hydro.h:14-30 | exactly the codes 0..12 are commands, and each decodes to the command with that code |
| `HydroLayout.CommandCodeRoundTrip` | include/Ladybug_Hydro.h:14-30 | every command's code decodes back to it |
| `HydroLayout.CommandCodeInjective` | include/Ladybug_Hydro.h:14-30 | distinct commands have distinct codes |
| `HydroLayout.DeviceNameBounds` | include/Ladybug_Hydro.h:32-36 | `DEVNAME_MAX_LEN` is 24, so it fits a block, and the default name "LBL" with its terminator is shorter |
| `HydroLayout.CalibrationValuesLayout` | include/Ladybug_Hydro.h:53-60 | the 16 bytes are pH4, pH7 (int16), EC1 and EC2 solutions (uint16), then `EC1_mV[2]` and `EC2_mV[2]` (uint16), all little-endian |
| `HydroLayout.CalibrationValuesRoundTrip` | include/Ladybug_Hydro.h:53-60 | deserialising serialised calibration values gives them back |
| `HydroLayout.CalibrationValuesBytesRoundTrip` | include/Ladybug_Hydro.h:53-60 | serialising deserialised bytes gives the 16 bytes back |
| `HydroLayout.StoreCalibrationValuesRoundTrip` | include/Ladybug_Hydro.h:61-64 | the sentinel-prefixed record (4 + 16 bytes) round-trips |
| `HydroLayout.StoreCalibrationValuesBytesRoundTrip` | include/Ladybug_Hydro.h:61-64 | any 20 bytes round-trip through the record |
| `HydroLayout.SentinelBytes` | include/Ladybug_Hydro.h:82-85 | a record with `WRITE_CHECK` (0x01020304) begins with bytes 04 03 02 01 |
| `HydroLayout.PlantInfoRoundTrip` | include/Ladybug_Hydro.h:66-77 | plant info (type[20], stage[8]) survives the byte view of the union |
| `HydroLayout.PlantInfoBytesRoundTrip` | include/Ladybug_Hydro.h:74-77 | any 28 bytes survive the struct view of the union |
| `HydroLayout.StorePlantInfoRoundTrip` | include/Ladybug_Hydro.h:78-81 | the sentinel-prefixed plant-info record round-trips |
| `HydroLayout.StorePlantInfoBytesRoundTrip` | include/Ladybug_Hydro.h:78-81 | any 32 bytes round-trip through the plant-info record |
| `HydroLayout.RecordsFitBlock` | include/Ladybug_flash.h:12-16 | every stored record fits a block, and the plant-info record fills it exactly |
| `HydroLayout.MeasurementsLayout` | include/Ladybug_Hydro.h:43-47 | the measurement bytes begin with EC Vin, EC Vout and pH mV as little-endian int16s, in that order |
| `HydroSpec.PointsDetermineRecord` | include/Ladybug_Hydro.h:53-60 | the four calibration points make up the whole calibration record |
| `HydroSpec.Calibrated` | src/Ladybug_Hydro.c:127-165 | a calibrate command sets only its point, leaving the other three: pH4 or pH7 to the pH reading; EC1, or EC2 for any other command, to the solution (as `uint16_t`) and the stored (Vin, Vout) |
| `HydroSpec.PHUndone` | src/Ladybug_Hydro.c:170-179 | the value goes into exactly one pH point (pH4 for undoPH4, pH7 for any other command); every other point is unchanged |
| `HydroSpec.ECUndone` | src/Ladybug_Hydro.c:184-194 | the (Vin, Vout) goes into exactly one EC point (EC1 for undoEC1, EC2 otherwise) with its solution kept; no solution value and no other point changes |
| `HydroSpec.CalibrationReset` | src/Ladybug_Hydro.c:199-240 | resetPHcalValues sets pH4 to 178 mV and pH7 to 0 mV and leaves EC alone; any other command zeroes both EC pairs and both solutions and leaves pH alone |
| `HydroSpec.ResetAllIsDefault` | src/Ladybug_Hydro.c:222-226 | resetting both families gives the defaults from any record |
| `HydroSpec.TwoPointECCalibration` | src/Ladybug_Hydro.c:127-165 | calibrating EC1 and then EC2, for any solution values and readings, leaves EC1 with the first solution and reading and EC2 with the second, and both pH points unchanged; different solutions stay different |
| `HydroSpec.CalibrationAfterLoad` | src/Ladybug_Hydro.c:245-254 | the load reads the payload only; if the in-memory sentinel is wrong it becomes `WRITE_CHECK`, both families go to defaults and the record is dirty; otherwise only the payload changes |
| `HydroSpec.CalibrationAfterLoadIntended` | src/Ladybug_Hydro.c:245-254 | the corrected load: the sentinel ends `WRITE_CHECK`; dirty exactly when the stored sentinel is wrong, and then the defaults; otherwise the record is the block's first 20 bytes |
| `HydroSpec.CalibrationIntendedRoundTrip` | src/Ladybug_Hydro.c:245-254 | with the corrected load, a written record comes back unchanged and clean; an erased block gives the defaults, dirty |
| `HydroSpec.BootCalibrationLoadDiscardsStore` | src/Ladybug_Hydro.c:26 | as written, the boot load from zeroed statics installs the defaults and marks them dirty, whatever the block holds |
| `HydroSpec.StoredCalibrationLost` | src/Ladybug_Hydro.c:245-254 | as written, a written record with pH4 at 150 mV loads back at boot with pH4 at 178 mV |
| `HydroSpec.PlantInfoAfterLoad` | src/Ladybug_Hydro.c:106-119 | the sentinel ends `WRITE_CHECK`; the record is dirty exactly when the in-memory sentinel was wrong, and then the plant info is 28 '?'; otherwise only the plant bytes change, to the loaded ones |
| `HydroSpec.PlantInfoAfterLoadIntended` | src/Ladybug_Hydro.c:106-119 | the corrected load: the sentinel ends `WRITE_CHECK`; dirty exactly when the stored sentinel is wrong, giving 28 '?'; otherwise the record is the block's bytes |
| `HydroSpec.PlantInfoIntendedRoundTrip` | src/Ladybug_Hydro.c:106-119 | with the corrected load, a written plant-info record comes back unchanged and clean; an erased block gives 28 '?', dirty |
| `HydroSpec.BootPlantInfoLoadDiscardsStore` | src/Ladybug_Hydro.c:25 | as written, the boot load from zeroed statics always gives '?' plant info, marked dirty |
| `HydroSpec.DeviceNameAfterLoad` | src/Ladybug_Hydro.c:312-325 | a block starting 0xFF gets "LBL\0" over its start and marks the name dirty; the name is always the first `DEVNAME_MAX_LEN` bytes |
| `HydroSpec.DeviceNameRoundTrip` | src/Ladybug_Hydro.c:312-325 | a written name not starting with 0xFF loads back unchanged and clean |
| `HydroSpec.NameCopied` | src/Ladybug_Hydro.c:332-338 | the first `len` bytes come from the new name and the rest of the buffer is kept |
| `HydroSpec.NameLength` | src/main.c:252-258 | `strlen`: the bytes before the first 0 are nonzero, and the byte after them is 0 unless the buffer ends |
| `HydroSpec.DefaultNameLength` | include/Ladybug_Hydro.h:87-93 | the default name is 3 characters long for the GAP layer |
| `Hydro.HydroState.constructor` | src/Ladybug_Hydro.c:22-28 | statics start zeroed (records, measurements and name) with all flags false |
| `Hydro.HydroState.UpdateCalibrationValue` | src/Ladybug_Hydro.c:127-165 | the new calibration values are `Calibrated` of the old ones and the readings; the sentinel is kept and the flag set |
| `Hydro.HydroState.UndoPHCalibration` | src/Ladybug_Hydro.c:170-179 | the calibration values become `PHUndone` of the old ones; the flag is set |
| `Hydro.HydroState.UndoECCalibration` | src/Ladybug_Hydro.c:184-194 | the calibration values become `ECUndone` of the old ones; the flag is set |
| `Hydro.HydroState.ResetPHCalibrationValues` | src/Ladybug_Hydro.c:199-203 | pH points go to their ideal values; the flag is not touched |
| `Hydro.HydroState.ResetECCalibrationValues` | src/Ladybug_Hydro.c:208-216 | EC pairs and solutions are zeroed; the flag is not touched |
| `Hydro.HydroState.ResetAllCalibrationValues` | src/Ladybug_Hydro.c:222-226 | the calibration values become the defaults and the flag is set |
| `Hydro.HydroState.ResetCalibrationValues` | src/Ladybug_Hydro.c:231-240 | resetPHcalValues resets pH, any other command resets EC; the flag is set |
| `Hydro.HydroState.LoadCalibration` | src/Ladybug_Hydro.c:245-254 | the record becomes `CalibrationAfterLoad` of the old record and the payload; the flag is raised when that reports dirty |
| `Hydro.HydroState.LoadPlantInfo` | src/Ladybug_Hydro.c:106-119 | the record becomes `PlantInfoAfterLoad` of the old record and the payload; the flag is raised when that reports dirty |
| `Hydro.HydroState.LoadDeviceName` | src/Ladybug_Hydro.c:312-325 | the name becomes `DeviceNameAfterLoad` of the block; the flag is raised when the block starts with 0xFF |
| `Hydro.HydroState.WriteDeviceName` | src/Ladybug_Hydro.c:326-338 | requires `len <= DEVNAME_MAX_LEN`; copies exactly `len` bytes, keeps the rest, sets the flag |
| `Hydro.HydroState.GetMeasurements` | src/Ladybug_Hydro.c:260-265 | the pH and EC readings are stored and the padding word is kept |
| `Hydro.HydroState.CalibrationValuesToWrite` | src/Ladybug_Hydro.c:279-286 | hands over the sentinel-prefixed record exactly when the flag was set; the flag is clear afterwards |
| `Hydro.HydroState.PlantInfoValuesToWrite` | src/Ladybug_Hydro.c:291-298 | hands over the plant-info record exactly when its flag was set; the flag is clear afterwards |
| `Hydro.HydroState.DeviceNameHasBeenUpdated` | src/Ladybug_Hydro.c:304-311 | hands over the name exactly when its flag was set; the flag is clear afterwards |
| `Hydro.PollAfterMutation` | src/Ladybug_Hydro.c:279-286 | after one mutation the first poll reports the record and a second poll reports nothing |
| `Flash.BlockHandlesBijective` | src/Ladybug_Flash.c:144-146 | calibration, plant info and device name get blocks 0, 1 and 2, one each; `hydroValues` gets none |
| `Flash.Stored` | src/Ladybug_Flash.c:242 | a store puts the bytes at offset 0 and leaves the rest of the block |
| `Flash.ClearThenStore` | src/Ladybug_Flash.c:229-245 | clear then store leaves the bytes followed by 0xFF, whatever the block held |
| `Flash.ResultErrors` | src/Ladybug_Flash.c:92-93 | a completion result adds nothing to the error log on success and exactly its own code otherwise |
| `Flash.BlockAfterWrite` | src/Ladybug_Flash.c:229-245 | a write's block: the bytes then 0xFF when clear and store succeed; erased when only the store fails; the bytes over the old contents when only the clear fails; unchanged when both fail |
| `Flash.FlashStore.constructor` | src/Ladybug_Flash.c:16-25 | power-up: nothing registered, no request in flight, flag and timer off, no callback and no fault |
| `Flash.FlashStore.Init` | src/Ladybug_Flash.c:125-150 | fixes the kind-to-block map used by every read and write |
| `Flash.FlashStore.ReadBegin` | src/Ladybug_Flash.c:160-185 | records the callback; an unmapped kind is logged as `FlashUnsureWhatDataToRead`; otherwise sets the flag, arms the timer and issues a whole-block load |
| `Flash.FlashStore.StartLoad` | src/Ladybug_Flash.c:181-184 | sets the wait flag, arms the timer and issues a load of the whole block into the caller's buffer |
| `Flash.FlashStore.FlashHandler` | src/Ladybug_Flash.c:85-118 | logs a non-success result as `ResultErrors` and leaves the flash and buffer as they were; on success applies the load, clear or store; always clears the wait flag |
| `Flash.FlashStore.TimeoutHandler` | src/Ladybug_Flash.c:32-40 | reports `FlashActionNotCompleted` through the recorded callback, or, with none recorded, reports nothing and marks the NULL call as a fault; disarms the timer and leaves the wait flag set |
| `Flash.FlashStore.ReadFinish` | src/Ladybug_Flash.c:185-188 | after the spin, stops the timer and returns the 32-byte buffer |
| `Flash.FlashStore.WriteBegin` | src/Ladybug_Flash.c:201-235 | records the callback, even a missing one; logs a null buffer or callback, a zero count and an unmapped kind; proceeds exactly when there is a buffer, a non-zero count and a mapped kind, then sets the flag, arms the timer and issues a clear of the block |
| `Flash.FlashStore.StartClear` | src/Ladybug_Flash.c:229-234 | sets the wait flag, arms the timer and issues a clear of the block, keeping the bytes to store |
| `Flash.FlashStore.WriteStore` | src/Ladybug_Flash.c:235-243 | after the clear: stops and re-arms the timer, sets the flag and issues the store of the same block |
| `Flash.FlashStore.WriteFinish` | src/Ladybug_Flash.c:243-245 | after the store, stops the timer |
| `Flash.FlashStore.CompleteWrite` | src/Ladybug_Flash.c:235-245 | after the clear: one store of the remembered bytes into the same block; the clear's and store's failures are logged in order; that block becomes `BlockAfterWrite` of its old contents and the two results, every other block is unchanged |
| `Flash.FlashStore.Read` | src/Ladybug_Flash.c:160-189 | a whole read: the kind's block on success, the buffer untouched on failure; flash unchanged; the timer is armed then disarmed |
| `Flash.FlashStore.Write` | src/Ladybug_Flash.c:201-246 | a whole write: accepted exactly when buffer, count and kind are valid, with or without a callback; logs the rejection codes, then the clear's and store's failures; a clear then a store of the same block, the timer armed and disarmed twice; only that block changes, to `BlockAfterWrite`, so the bytes then 0xFF when both succeed |
| `LblService.DecodeControlWrite` | src/ble_lbl_service.c:160-230 | the command is `data[0]`; unknown codes decode to nothing; a rename takes `len` bytes from `data[1]` |
| `LblService.EncodeControl` | src/ble_lbl_service.c:168-219 | the client's bytes for each fixed-size command start with a valid command code |
| `LblService.ControlRoundTrip` | src/ble_lbl_service.c:168-219 | every fixed-size command (pH calibration with solution 0, EC solution as little-endian uint16, undo values as little-endian int16) decodes back from its encoding |
| `LblService.CalibrateRoundTrip` | src/ble_lbl_service.c:175-194 | a calibrate write (pH with no argument, EC with a little-endian uint16 solution) decodes to the calibration it encodes |
| `LblService.UndoPHRoundTrip` | src/ble_lbl_service.c:195-202 | an undo-pH write with a little-endian int16 decodes to the point it encodes |
| `LblService.UndoECRoundTrip` | src/ble_lbl_service.c:203-211 | an undo-EC write with two little-endian int16s decodes to the (Vin, Vout) it encodes |
| `LblService.ControlBytesRoundTrip` | src/ble_lbl_service.c:168-219 | every write with a known fixed-size command is the encoding of what it decodes to, on the bytes `on_write` reads |
| `LblService.CalibrationEffect` | src/ble_lbl_service.c:169-211 | only calibration commands change calibration values; a calibrate command leaves the points it does not name, a pH reset or undo leaves EC, an EC reset or undo leaves pH (and undo EC the solutions) |
| `LblService.Service.constructor` | src/ble_lbl_service.c:573 | a new service has the invalid connection handle |
| `LblService.Service.OnConnect` | src/ble_lbl_service.c:37-40 | stores the event's connection handle |
| `LblService.Service.OnDisconnect` | src/ble_lbl_service.c:46-50 | sets the connection handle to `BLE_CONN_HANDLE_INVALID` (0xFFFF) |
| `LblService.Service.SetDeviceName` | src/ble_lbl_service.c:65-99 | the GAP layer gets the first `len-1` bytes; the record manager persists all `len` bytes |
| `LblService.Service.OnWrite` | src/ble_lbl_service.c:160-230 | only control-handle writes act; each decoded command has the effect `ControlApplied` names (its calibration effect and flag, rename or measurement refresh, and the matching notification); unknown commands and other handles change nothing |
| `LblService.Service.ApplyControl` | src/ble_lbl_service.c:168-227 | each decoded action changes calibration by `CalibrationEffect` and sets its flag, stores measurements or renames only for its own command, leaves plant info alone, and sends exactly the matching notification |
| `LblService.Service.NotifyCalibration` | src/ble_lbl_service.c:137-151 | notifies the 16 calibration bytes on the current connection |
| `LblService.Service.OnBleEvent` | src/ble_lbl_service.c:236-262 | connect and disconnect set the handle; a write to the control handle has its decoded command's effect, a write to any other handle and every other event leave the records, notifications and name alone |
| `LblService.RenameAsWritten` | src/ble_lbl_service.c:220-224 | as written, a rename write of name + 0 advertises the 0 and persists one byte from beyond the write |
| `LblService.RenameIntended` | src/ble_lbl_service.c:220-224 | the corrected rename takes only the written bytes after the command, one fewer than the write length |
| `LblService.RenameIntendedConsistent` | src/ble_lbl_service.c:53-98 | with the corrected rename, the advertised name equals the name recomputed from the persisted copy at restart |
| `MainLoop.ReadRecord` | src/Ladybug_Hydro.c:110 | a load's read returns the kind's block on success, or the buffer on failure, and leaves flash unchanged |
| `MainLoop.WriteRecord` | src/main.c:473-487 | a flush clears and stores only the kind's block, with or without a callback; that block becomes `BlockAfterWrite` of its outcome (the record then 0xFF when both steps succeed); the log gains `WriteErrors` |
| `MainLoop.WriteErrors` | src/Ladybug_Flash.c:201-246 | a loop write logs nothing exactly when there is a callback and clear and store succeed; `NullPointer` comes first exactly when the callback is missing; everything after it is a service error, at most three entries |
| `MainLoop.Boot` | src/main.c:452-467 | flash init comes first, then the name and GAP name, then the service with invalid connection, then the plant-info load, the measurement read and the calibration load; calibration and plant info always end at their defaults, dirty, and the measurements hold the boot readings with padding 0 |
| `MainLoop.LoadDeviceNameAtBoot` | src/main.c:245-259 | the GAP name is the loaded name up to its first 0 |
| `MainLoop.LoadRecordsAtBoot` | src/ble_lbl_service.c:590-600 | the plant-info load, then the measurement read of `measurement_char_add`, then the calibration load; from zeroed statics both records end at their defaults and the measurements take the readings |
| `MainLoop.LoadPlantInfoAtBoot` | src/ble_lbl_service.c:544 | the plant-info load at boot reads block 1 and ends with '?' plant info, marked dirty |
| `MainLoop.LoadCalibrationAtBoot` | src/ble_lbl_service.c:486 | the calibration load at boot reads block 0 and ends with the default calibration, marked dirty |
| `MainLoop.InstallBootCalibration` | src/Ladybug_Hydro.c:245-254 | on zeroed statics the calibration load installs the defaults, marked dirty, whatever payload the read delivered |
| `MainLoop.WriteBackPass` | src/main.c:469-489 | polls calibration, then plant info, then the name; writes each dirty record (20, 32 and `DEVNAME_MAX_LEN` bytes) and nothing else, each block becoming `BlockAfterWrite` of its outcome, and logs each write's `WriteErrors` in order; no flag stays set, so a store failing after a good clear leaves the block erased and the record clean |
| `MainLoop.FlushCalibration` | src/main.c:473-477 | writes the 20-byte calibration record to block 0 exactly when its poll reports it; that block becomes `BlockAfterWrite` of the outcome and the log gains `WriteErrors`; no other block changes |
| `MainLoop.FlushPlantInfo` | src/main.c:478-482 | writes the 32-byte plant-info record to block 1 exactly when its poll reports it; that block becomes `BlockAfterWrite` of the outcome and the log gains `WriteErrors`; no other block changes |
| `MainLoop.FlushDeviceName` | src/main.c:483-487 | writes `DEVNAME_MAX_LEN` name bytes to block 2 exactly when its poll reports it; that block becomes `BlockAfterWrite` of the outcome and the log gains `WriteErrors`; no other block changes |
| `MainLoop.WriteBackThenLoad` | src/main.c:473-487 | what a pass whose clears and stores all succeed writes, with or without a callback, the corrected loads read back unchanged |
| `Adc.CDiv` | src/Ladybug_ADC.c:22-23 | C's `/` truncates toward zero: the remainder `a - q*b` is smaller than the divisor in magnitude and never has the opposite sign to the dividend |
| `Adc.AdcResultInMilliVolts` | src/Ladybug_ADC.c:22-23 | the conversion is a multiple of 3 with the sign of the count |
| `Adc.ReadMilliVolts` | src/Ladybug_ADC.c:75-89 | for a 10-bit count the value stored back into the `int16_t` is the conversion itself, within 0..3600 mV |
| `Adc.ConversionEndpoints` | src/Ladybug_ADC.c:20-23 | raw 0 gives 0 mV and raw 1023 gives 3600 mV |
| `Adc.ConversionMonotone` | src/Ladybug_ADC.c:22-23 | the conversion never decreases as the count grows |
| `Adc.ConversionFitsInt16` | src/Ladybug_ADC.c:75-88 | every 10-bit count gives 0..3600 mV, which the `int16_t` keeps unchanged |
| `Adc.ConversionPrecision` | src/Ladybug_ADC.c:22-23 | dividing before the ×3 loses less than 3 mV against raw·3600/1023 |
| `Adc.ChannelMaskIsOneHot` | src/Ladybug_ADC.c:44 | `1 << which_AIN` is 2^which: one bit, in the low byte |
| `Adc.ChannelMaskInjective` | src/Ladybug_ADC.c:44 | different inputs select different bits |

## Left out

- BLE stack configuration is left out: characteristic and service
  registration, advertising, GAP, security and connection parameters, and
  `on_ble_evt` in `src/main.c`. These are calls into the vendor stack. Only
  the service's connection handle is modelled.
- Notification sending (`sd_ble_gatts_hvx`, `sd_ble_gap_device_name_set`,
  `ble_advdata_set`) is recorded as a `Notification` value or a `gapName`
  field. Their return codes are taken as success.
- ADC register programming, the BUSY spin and the GPIO discharge are left
  out. The pH, EC and battery readings are parameters.
- Interrupt and timer concurrency is not modelled. Completion and timeout are
  sequential event methods. The composite `Read` and `Write` take the
  timer not to fire.
- `Flash.FlashStore.Init`: `pstorage_init`, `pstorage_register`,
  `pstorage_block_identifier_get` and `app_timer_create` are taken as
  successful, so init always yields the three block handles. Their error
  paths go to the vendor error handler.
- `Flash.FlashStore.FlashHandler`: a request that completes with an error is
  taken to leave its block and the read buffer unchanged. A store after a
  failed clear is taken to write over the old contents (`BlockAfterWrite`);
  the source warns that storing to an uncleared block gives unpredictable
  results, which the model does not capture.
- `Flash.FlashStore.TimeoutHandler`: calling through a NULL callback is
  undefined behaviour in C. The model records it as `faulted` and reports
  nothing; what the chip then does is not modelled.
- Results returned synchronously by `pstorage_load`, `pstorage_clear`,
  `pstorage_store`, `app_timer_start` and `app_timer_stop` are taken as
  success.
- `Flash.FlashStore.WriteBegin`, `Flash.FlashStore.Write`: after an unmapped
  kind is logged, the source goes on with an unset block handle, which is
  undefined in C, so the model stops the write. A null buffer or a zero count
  with a mapped kind is also only logged in the source, which then clears
  (erases) that block and issues a store the storage service has to refuse.
  The model issues nothing in that case and leaves the block unchanged, so it
  does not capture that the block is erased, nor the wait on a store that
  never completes. A missing callback alone does not stop the write, in the
  source or the model.
- Over-long loads are truncated. The C read copies 32 bytes into the 28-byte
  plant-info field and the 16-byte calibration field. The model keeps the
  bytes that fit and does not model the overrun into neighbouring memory.
- `HydroSpec.NameLength`: it stops at the end of the name buffer, whereas
  `strlen` runs past a full 24-byte name that has no terminator.
- `Hydro.HydroState.WriteDeviceName`: `len <= DEVNAME_MAX_LEN` is a
  precondition, as the function's documentation asks. The clamp the source
  computes is discarded, so longer names overrun in C.
- `LblService.Service.OnWrite`: a control write must carry its command byte
  (`len >= 1`), and a rename must fit `DEVNAME_MAX_LEN`. The source reads
  `data[0]` and copies the name without checking either.
- `BLE_GAP_DEVNAME_MAX_LEN` (31) and `BLE_CONN_HANDLE_INVALID` (0xFFFF) are
  vendor-stack constants and do not appear in these sources.
- The numeric values of the `LADYBUG_ERROR_*` codes are not modelled. They
  appear as `ErrorCode` constructors.
- The header declares the flash read and write without their callback
  parameter, and the callers use that shape. The callback the definitions
  then receive is indeterminate, so it is a parameter (`cb`).
- `ladybug_get_calibration_values_memory_location`, the SEGGER RTT logging,
  `display_bytes` and `print_out_calibration_values` are left out. They only
  hand out a pointer or print diagnostics.
- The comment beside the EC reset loop says the solution values are kept.
  The code zeroes them, and the model follows the code.

## Findings

| source | as written | input that shows it | evidently intended | confidence | as-written member | corrected member |
|---|---|---|---|---|---|---|
| src/Ladybug_Hydro.c:245-254 | the calibration load reads into the payload field only and then compares the in-memory sentinel, which is still 0 at boot | flash holding a record with `WRITE_CHECK` and pH4 = 150 mV: after a restart pH4 is 178 mV and the defaults are written back | read the whole sentinel-prefixed record and compare the stored sentinel | high, not executed | `HydroSpec.BootCalibrationLoadDiscardsStore` | `HydroSpec.CalibrationIntendedRoundTrip` |
| src/Ladybug_Hydro.c:106-119 | the same for plant info: the bytes go into the payload and the in-memory sentinel is compared | any stored plant info: after a restart it reads 28 '?' | read the whole record and compare the stored sentinel | high, not executed | `HydroSpec.BootPlantInfoLoadDiscardsStore` | `HydroSpec.PlantInfoIntendedRoundTrip` |
| src/ble_lbl_service.c:220-224 | `on_write` passes the write length, which counts the command byte, to `update_device_name` | the write `[12, 'a', 'b', 0]` (len 4): the GAP name is "ab\0" (3 bytes), and the persisted copy takes `data[4]`, a byte outside the write; after a restart the name is 2 bytes | pass `len - 1` and the bytes after the command byte | medium, not executed | `LblService.RenameAsWritten` | `LblService.RenameIntendedConsistent` |

The stateful model (`Hydro.HydroState`, `LblService.Service`, `MainLoop.Boot`)
keeps the firmware's behaviour as written. `MainLoop.Boot` proves the first
two findings at the level of the whole start-up: whatever the flash holds,
calibration and plant info end at their defaults and are marked dirty. So the
first write-back pass overwrites the stored records. The corrected loads and
rename are stated beside the as-written ones. `MainLoop.WriteBackThenLoad`
shows that the corrected loads read back exactly what the loop writes.
