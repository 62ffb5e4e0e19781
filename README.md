# ANT+ sensor channel engine and muscle-oxygen decoder, in Dafny

This project models two parts of a TypeScript library that talks to ANT+
fitness sensors through a USB radio stick.

* **The per-channel protocol engine of `BaseSensor`** (`channel.dfy`,
  `base_sensor.dfy`). It covers the send queue, which writes one message at a
  time and releases the next one when the device reports a transfer
  completion. It covers the two status handlers that `attach` (one known
  device) and `scan` (every device, channel 0) install, and the guards of
  `attach`, `scan` and `detach`. It also covers the router that filters
  inbound frames by channel and hands them to the handler or the data
  decoder. The class `Sensors.BaseSensor` keeps the source's fields
  (`channel`, `deviceID`, `transmissionType`, `msgQueue`, `statusCbk`). What
  the sensor writes to the stick, emits to listeners, passes to send
  callbacks and to the data decoder is appended to log fields. Ghost history
  fields record every entry ever sent, how many have completed, and the
  writes the queue issued. `Send` and `CompleteHead` state how they extend
  that history, and every write they make is added to it. The other
  operations change it only through `CompleteHead`, on a completion code. The invariant `Valid` then states the queue's
  promise: first in, first out, one write in flight (always the queue head),
  no queued message written twice.
  The handlers are the datatype `Channel.Handler`, and `Channel.Dispatch`
  says what a handler does with one `(msg, code)` pair.
* **The muscle-oxygen page decoder `updateState`** (`muscle_oxygen.dfy`,
  `muscle_oxygen_properties.dfy`). It reads the measurement page 0x01 and the
  common pages 0x50 (manufacturer), 0x51 (product) and 0x52 (battery). It
  extracts bit fields, maps sentinel codes to named statuses, and keeps the
  raw 8-bit event counter. It emits an update unless a measurement page
  repeats the stored counter. The class `MuscleOxygen.MuscleOxygenState`
  holds the fields that are changed in place, and `MuscleOxygen.UpdateState`
  is proved against the specification function `MuscleOxygen.Decode`.

The stick's answers (`attach`, `detach`, `canScan`, `isScanning`) are boolean
parameters. Protocol constants are constructors of `Channel.MessageId` and
`Channel.EventCode`, and outbound messages are constructors of `Channel.Cmd`.

The code departs from what its names and comments suggest in three places,
and the model follows the code:

* The handlers keep no handshake phase. Every confirmation always writes its
  own next command, whatever came before, and an out-of-order confirmation
  is not refused. `Sensors.OpenBeforeSetup` shows this on a sensor.
  `Channel.ReplayHasNoPhase` states it for status sequences, a fact that
  follows from `Dispatch` depending on the handler and the status alone.
* The decoder does not keep a rollover-corrected counter. The local adjusted
  at the "Hit rollover value" comment is never read again, so the stored counter goes back to 0 at the
  wrap (`MuscleOxygenProperties.CounterWrapsRaw`).
* The serial number is read as a signed word, so the `serial !== 0xffffffff`
  check never fails and the serial is always stored (`MuscleOxygenProperties.SerialAlwaysAssigned`).

## Model

| member | source | states |
|---|---|---|
| `Channel.Dispatch` | src/sensors/BaseSensor.ts:124-182 | No handler handles nothing. Completion codes pop the queue with success iff TX completed, under both handlers, and only completion codes release the queue. Closed-channel and go-to-search codes write an unassign for the handler's own channel. Only the unassign confirmation unbinds. Only OPEN (directed) or OPEN_RX_SCAN (scan) announces attachment. Acknowledged data is handled, with no other effect, iff the transfer is in progress. Every written command addresses the handler's channel. |
| `Channel.Replay` | src/sensors/BaseSensor.ts:124-182 | The actions for a sequence of statuses are, position by position, the action for each status alone. |
| `Channel.ReplayHasNoPhase` | src/sensors/BaseSensor.ts:124-182 | What a handler does with later statuses does not depend on the statuses already seen: no stored phase. |
| `Channel.AttachHandshake` | src/sensors/BaseSensor.ts:148-168 | The directed confirmations ASSIGN, ID, SEARCH_TIMEOUT, FREQUENCY, PERIOD, LIB_CONFIG, OPEN write setDevice, searchChannel, setFrequency, setPeriod, libConfig(0xe0), openChannel, then announce attached. |
| `Channel.ScanHandshake` | src/sensors/BaseSensor.ts:59-76 | The scan confirmations write setDevice(0,0,0,0), setFrequency, setRxExt, libConfig(0xe0), openRxScan on channel 0, then announce attached. |
| `Channel.ScanSkipsTimeoutAndPeriod` | src/sensors/BaseSensor.ts:35-89 | The scan handler reports SEARCH_TIMEOUT and PERIOD confirmations unhandled. |
| `Channel.SharedCases` | src/sensors/BaseSensor.ts:77-89 | In both handlers, CLOSE is handled with no effect, UNASSIGN unbinds, unknown messages and other RF codes are unhandled. The directed handler leaves ENABLE_RX_EXT and OPEN_RX_SCAN unhandled, and the scan handler leaves OPEN unhandled. |
| `Sensors.BaseSensor.constructor` | src/sensors/BaseSensor.ts:7-22 | A new sensor is unbound, with no handler, an empty queue and empty logs. |
| `Sensors.BaseSensor.Send` | src/sensors/BaseSensor.ts:228-233 | The entry is appended at the tail. The message is written iff the queue was empty. The entry is added to the history, and the write (if any) is recorded as the queue's. Binding and other logs are unchanged, and the FIFO invariant is kept. |
| `Sensors.BaseSensor.CompleteHead` | src/sensors/BaseSensor.ts:43-54 | On a non-empty queue, exactly the head is removed, its callback (if any) gets the success flag, and the new head (if any) is written. The history counts one more completion, and the write (if any) is recorded as the queue's. On an empty queue nothing changes. |
| `Sensors.BaseSensor.OnStatus` | src/sensors/BaseSensor.ts:214 | Returns whether the installed handler handles the status and performs exactly that handler's action on the fields and logs. |
| `Sensors.BaseSensor.Scan` | src/sensors/BaseSensor.ts:24-111 | Bound: throws "already attached", nothing changes. Stick cannot scan: throws, nothing changes. Stick already scanning: binds channel 0 and emits attached without an assign. Otherwise writes assignChannel if the stick attaches, and throws "cannot attach" with nothing changed if it does not. |
| `Sensors.BaseSensor.Attach` | src/sensors/BaseSensor.ts:113-187 | Bound: throws "already attached". Stick refuses: throws "cannot attach" before any field is set. Otherwise binds channel, device id, transmission type and the directed handler, and writes assignChannel. |
| `Sensors.BaseSensor.Detach` | src/sensors/BaseSensor.ts:189-197 | No-op when unbound. Otherwise writes closeChannel for the bound channel before failing with "error detaching" if the stick refuses, and never clears the binding. |
| `Sensors.BaseSensor.HandleEventMessages` | src/sensors/BaseSensor.ts:203-226 | Frames for another channel, or any frame while unbound, change nothing. A handled channel event performs the handler's action. An unhandled one emits eventData with the same pair. Data frames reach the decoder only when one is set. |
| `Sensors.DirectedHandshake` | src/sensors/BaseSensor.ts:148-168 | Attaching and feeding the seven confirmations in order writes assignChannel and the six setup commands, in order, and schedules exactly one attached. |
| `Sensors.OpenBeforeSetup` | src/sensors/BaseSensor.ts:166-168 | An attached sensor that gets the OPEN confirmation before any setup confirmation still schedules attached and writes nothing more: the handler keeps no phase. |
| `Sensors.ScanHandshakeRun` | src/sensors/BaseSensor.ts:59-76 | Scanning on an idle stick and feeding the six confirmations writes assignChannel and the five scan setup commands on channel 0, then one attached. |
| `Sensors.QueueInOrder` | src/sensors/BaseSensor.ts:47-53 | Messages A, B, C sent back to back are written A, B, C, each released by the previous completion, and each callback gets its own success flag. |
| `Sensors.LostChannelThenReattach` | src/sensors/BaseSensor.ts:128-175 | A go-to-search event writes unassignChannel. The unassign confirmation unbinds and schedules detached, after which attach succeeds again. |
| `Sensors.DetachWaitsForUnassign` | src/sensors/BaseSensor.ts:189-197 | After detach the sensor is still bound (attach is refused) until the CLOSE and UNASSIGN confirmations arrive. |
| `Sensors.CompleteAndResendAsWritten` | src/sensors/BaseSensor.ts:136-142 | The completion branch as written, when the completed entry's callback sends another message: if the completed entry was alone, that message is written twice; otherwise only the entry that was next is written. |
| `Sensors.ResendWrittenTwice` | src/sensors/BaseSensor.ts:136-142 | If the completed entry was the only one, the message its callback sends is written twice. |
| `Sensors.CompleteAndResend` | src/sensors/BaseSensor.ts:136-142 | Corrected completion: whatever the callback sends, exactly one write happens, of the new head. |
| `MuscleOxygen.I32LE` | src/sensors/muscleOxygen/muscleOxygenUtils.ts:108 | `readInt32LE` lies in [-2^31, 2^31), agrees with the unsigned word modulo 2^32, and its low byte is the first byte read. |
| `MuscleOxygen.TotalField` | src/sensors/muscleOxygen/muscleOxygenUtils.ts:32 | The total is below 4096 and is the low 12 bits of bytes +4..+5. |
| `MuscleOxygen.PreviousField` | src/sensors/muscleOxygen/muscleOxygenUtils.ts:33 | The previous saturation is below 1024 and is bits 4..13 of bytes +5..+6. |
| `MuscleOxygen.CurrentField` | src/sensors/muscleOxygen/muscleOxygenUtils.ts:34 | The current saturation is below 1024 and is bits 6..15 of bytes +6..+7. |
| `MuscleOxygen.IntervalCode` | src/sensors/muscleOxygen/muscleOxygenUtils.ts:47 | The interval code is bits 1..3 of byte +3. |
| `MuscleOxygen.Interval` | src/sensors/muscleOxygen/muscleOxygenUtils.ts:47-62 | Codes 1..4 give 2^code/8 seconds (0.25, 0.5, 1, 2). Every other code removes the field. |
| `MuscleOxygen.ToReading` | src/sensors/muscleOxygen/muscleOxygenUtils.ts:64-95 | The sentinel switch loses nothing: all ones minus one and all ones map to AmbientLightTooHigh and Invalid, and a number maps to itself below them. |
| `MuscleOxygen.ReadingRoundTrip` | src/sensors/muscleOxygen/muscleOxygenUtils.ts:64-95 | Every reading below the sentinels comes back from its raw field. |
| `MuscleOxygen.BatteryStatusOf` | src/sensors/muscleOxygen/muscleOxygenUtils.ts:133-153 | Flags 1..5 are named New, Good, Ok, Low, Critical (in that order). Any other value is Invalid. |
| `MuscleOxygen.BatteryFlags` | src/sensors/muscleOxygen/muscleOxygenUtils.ts:131 | `(status & 0x70) >>> 4` of the signed word at +7 is bits 4..6 of byte +7. |
| `MuscleOxygen.OperatingTime` | src/sensors/muscleOxygen/muscleOxygenUtils.ts:125-129 | The 24-bit count at +3, times 2 when bit 7 of byte +7 is set and times 16 otherwise. |
| `MuscleOxygen.BatteryVoltage` | src/sensors/muscleOxygen/muscleOxygenUtils.ts:126-130 | The low nibble of byte +7 plus the signed word at +6 in 1/256 units. |
| `MuscleOxygen.SwVersion` | src/sensors/muscleOxygen/muscleOxygenUtils.ts:110-114 | The whole part is the main revision. Any other supplemental revision adds exactly its value in thousandths, and 0xff adds nothing. |
| `MuscleOxygen.UpdateState` | src/sensors/muscleOxygen/muscleOxygenUtils.ts:23-162 | The state changed in place and the emitted flag are exactly those of `Decode`: page dispatch, range failures, emission rule. |
| `MuscleOxygen.UpdateMeasurement` | src/sensors/muscleOxygen/muscleOxygenUtils.ts:28-98 | Page 0x01 sets the counter (only when the raw count differs), the notification and capability flags, the interval and the three readings. |
| `MuscleOxygen.UpdateManufacturer` | src/sensors/muscleOxygen/muscleOxygenUtils.ts:99-104 | Page 0x50 stores each field as it is read, and fails when a read passes the frame's end. |
| `MuscleOxygen.UpdateProduct` | src/sensors/muscleOxygen/muscleOxygenUtils.ts:105-121 | Page 0x51 sets the software version and the signed serial. |
| `MuscleOxygen.UpdateBattery` | src/sensors/muscleOxygen/muscleOxygenUtils.ts:122-155 | Page 0x52 sets the operating time, status bits, status name and voltage, and clears the voltage for an invalid status. |
| `MuscleOxygenProperties.UnknownPageIgnored` | src/sensors/muscleOxygen/muscleOxygenUtils.ts:156-158 | A page other than 0x01/0x50/0x51/0x52 leaves the state unchanged and emits nothing. |
| `MuscleOxygenProperties.CounterKeepsRawByte` | src/sensors/muscleOxygen/muscleOxygenUtils.ts:24-42 | After a measurement page the stored counter is the raw 8-bit count, except that 0 never replaces an absent counter. |
| `MuscleOxygenProperties.EmissionRule` | src/sensors/muscleOxygen/muscleOxygenUtils.ts:159-161 | A measurement page emits iff the stored counter is not already its count (an absent counter always differs). |
| `MuscleOxygenProperties.InformationPagesEmit` | src/sensors/muscleOxygen/muscleOxygenUtils.ts:159-161 | Pages 0x50 and 0x51 emit on any frame that reaches +7, and page 0x52 on any frame that reaches +10. |
| `MuscleOxygenProperties.RepeatedPageEmitsOnce` | src/sensors/muscleOxygen/muscleOxygenUtils.ts:36-37 | A repeated measurement page emits nothing the second time, unless its count is 0 and no counter is stored. |
| `MuscleOxygenProperties.ZeroCountKeepsEmitting` | src/sensors/muscleOxygen/muscleOxygenUtils.ts:24 | With no stored counter, count-0 pages emit and store nothing. |
| `MuscleOxygenProperties.EmissionsFollowCounterChanges` | src/sensors/muscleOxygen/muscleOxygenUtils.ts:159-161 | Once a counter is stored, a run of measurement pages emits exactly one update per change of the count, and the counter ends as the last raw count. |
| `MuscleOxygenProperties.CounterWrapsRaw` | src/sensors/muscleOxygen/muscleOxygenUtils.ts:36-42 | A count wrapping from 255 to 0 stores 0. The rollover-adjusted value is not kept. |
| `MuscleOxygenProperties.TotalReadingExamples` | src/sensors/muscleOxygen/muscleOxygenUtils.ts:64-73 | A total field of 0xffe decodes AmbientLightTooHigh, 0xfff decodes Invalid, and 500 decodes 500. |
| `MuscleOxygenProperties.MeasurementIntervalFromCapabilities` | src/sensors/muscleOxygen/muscleOxygenUtils.ts:44-62 | Capability code 3 gives a 1 s interval and code 0 removes it. UTCTimeRequired is bit 0 of the notifications byte, and SupportANTFS is bit 0 of the capabilities. |
| `MuscleOxygenProperties.ManufacturerPageFields` | src/sensors/muscleOxygen/muscleOxygenUtils.ts:99-104 | Page 0x50 sets HwVersion = byte +3, ManId = u16LE at +4 and ModelNum = u16LE at +6, and nothing else. |
| `MuscleOxygenProperties.ManufacturerPageCutShort` | src/sensors/muscleOxygen/muscleOxygenUtils.ts:100-101 | A page 0x50 frame ending before the manufacturer id keeps the hardware revision and fails. |
| `MuscleOxygenProperties.SerialAlwaysAssigned` | src/sensors/muscleOxygen/muscleOxygenUtils.ts:106-118 | The serial number is always set to the signed word at +4, an all-ones serial reads -1, and SwVersion is set from bytes +3 and +2. |
| `MuscleOxygenProperties.BatteryPageFields` | src/sensors/muscleOxygen/muscleOxygenUtils.ts:125-153 | The status bits are always stored. Status 5 is Critical with a voltage, and status 0/6/7 is Invalid with the voltage cleared. The operating time is the 24-bit count times 2 or 16. |

## Findings

| source | as written | input that shows it | evidently intended | confidence | as-written member | corrected member |
|---|---|---|---|---|---|---|
| src/sensors/BaseSensor.ts:136-142 | The head is removed, then its callback runs, then the new head is written if the queue is non-empty. | The queue holds only A, and A's callback calls `send(B)`, e.g. to retry a failed transfer. `send` finds the queue empty and writes B, then the completion branch writes B again. | Each queued message is written once: write the new head only if it was queued before the callback ran. | medium: needs a callback that sends; not executed | `Sensors.ResendWrittenTwice` (on `Sensors.CompleteAndResendAsWritten`) | `Sensors.CompleteAndResend` |

`Sensors.BaseSensor.CompleteHead` does not run callbacks. It logs them. Its
behaviour matches the corrected definition.

## Left out

- The USB stick is left out: its writes are a log, and its `attach`, `detach`, `canScan` and `isScanning` answers are parameters. The side effects of `stick.attach`/`stick.detach` on the stick's own slot bookkeeping are not modelled.
- Event emission is a notification log in the order the sensor schedules notifications. `process.nextTick` defers `attached` and `detached`, while `eventData` is emitted at once. If the stick delivers several frames in one synchronous run, listeners can see a later frame's `eventData` before an earlier frame's `attached` or `detached`. That order between deferred and immediate notifications is not modelled.
- The `console.log` of unhandled frames is left out.
- Send callbacks are not run: their calls are logged. A callback that calls back into the sensor is therefore only modelled in the Findings functions.
- The byte layouts of outbound messages and the numeric values of the protocol constants are not part of this model. `OtherMessage`/`OtherCode` stand for bytes outside the named constants and are assumed not to collide with them.
- Inbound frames are given already split by their message-type byte into channel events and data frames. Reading the type, channel and status bytes at their fixed offsets, including a frame too short to hold them, is not modelled.
- `decodeDataCbk` is a flag. The data frames it receives are logged. Which decoder a concrete sensor installs is not part of this model.
- The abstract `updateState` member of `BaseSensor` has no body there and is left out. The muscle-oxygen `updateState` is modelled separately.
- Scanner bookkeeping (one state per device id) and the sensor/scanner objects that call `updateState` are not part of this model. The state is passed in.
- `SwVersion` is an exact rational `main + sup/1000`. The rounding of the double-precision result is not modelled. `BatteryVoltage` (a 4-bit integer plus an int32/256) and `MeasurementInterval` are exactly representable, so reals are exact for them.
- `delete state.MeasurementInterval` and `state.BatteryVoltage = undefined` are both an absent field (`None`). Whether the property key is still present is not modelled.
- The decoder's payload starts at the page byte (`BUFFER_INDEX_MSG_DATA` of the frame). The header bytes before it are not modelled. Bytes after the 8-byte page (checksum, extended data) are part of the payload, so page 0x52's 32-bit reads at +6 and +7 succeed only on a frame that reaches +10. Shorter frames give `OutOfRange`, as Node's `RangeError` would.
- The battery page's `batteryId` byte is read and ignored. Its read needs no more bytes than the later ones, so it is left out.
- src/index.ts (re-exports), dist/sensors/speed/speedScanner.d.ts (declarations without bodies) and src/sensors/fitnessEquipment/FitnessEquipmentSensorState.ts (a field record with no operations) hold no logic to model.
