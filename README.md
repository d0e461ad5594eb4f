# Smart-home firmware core, modelled in Dafny

This project models the control core of a smart-home system built on an ESP32.

**Output managers.** An RGB strip, a fan, a two-line character display, a door servo and a buzzer each sit behind a manager. Each manager keeps an owner tag and a countdown: a `show`/`open`/`start` call takes the output for some number of `update()` ticks. The RGB manager arbitrates between owners with a fixed priority table: gas 3, rfid 2, steam 1, motion 0.

**Handlers.** Each handler reacts to one sensor or to one MQTT control topic:
- the gas alarm latch;
- falling-edge button toggles;
- the motion countdown;
- the temperature/humidity redraw and publish;
- the RFID verdict, and door, window and fan commands.

**Helpers.** The model also covers:
- the timezone, night-window and ISO-timestamp helper;
- the topic-to-callback table of the MQTT client;
- the RFID card-id rendering and the PIR debounce.

**API side.** The API's cache of the latest temperature and humidity readings is modelled. So are the five MQTT message-schema validators of the contract tests: access, environmental, security, emergency and system status.

**How the hardware is represented.** All hardware is one `Devices.Board` object. Its fields are the observable outputs:
- the strip colour;
- the fan motor;
- the position commanded on each servo pin;
- the buzzer;
- the two display lines.

Every driver object holds a reference to that board. A handler that builds its own `RGB()` or `Fan()` therefore acts on the same output as the manager. This is how the firmware's gas and motion handlers, and its fan and window commands, bypass arbitration.

Objects whose fields the firmware updates in place are Dafny classes with `modifies` frames:
- the managers and the handlers;
- `TimeSync`, the MQTT client, the RFID and PIR sensors;
- the API cache.

Each state-changing method states its whole new state. Most do this through a specification function of the old state, for example:
- `Countdown.Tick`;
- `RgbOutput.AfterShow`;
- `OledOutput.AfterRequests`;
- `ButtonHandler.Step`;
- `MotionHandler.CountAfter`;
- `SensorDataHandler.Apply`.

Lemmas about those functions carry the properties over runs of calls. Pure code becomes functions: the validators, timestamp formatting, priority lookups and card-id rendering. Loops become methods with invariants: the validators' field loops, `get_card_id` and `clear_card`.

Readings are parameters of each call: sensor pins, DHT11 values, the NTP result and the clock. So are the broker's answers and deserialised payloads. Messages a handler publishes are returned as `Message(topic, payload)` values. Display requests are returned as `DisplayRequest` values.

### Behaviour worth knowing

- **RGB refreshes.** `RGBManager.show` refuses a request while an owner holds the strip whenever `self.priority[owner] <= self.priority[self.owner]` (esp32/outputs/rgb.py:27-28). Equal priority is refused, so the current owner cannot refresh its own grant.
- **RGB grants of duration 0.** A grant of duration 0 is never released, because `update` only acts on a positive countdown.
- **Colour arbitration.** The gas and motion handlers build their own `RGB()` and never call the manager. Motion therefore paints over the gas alarm's red, and its countdown turns the strip off while the alarm is still raised (`MotionHandler.MotionOverridesGasColour`).
- **Environment units.** The environment handler publishes units `"C"` and `"%"`. The environmental schema accepts only `celsius`, `percent` and `ppm`, so every reading the firmware publishes fails that schema with exactly one error.
- **API data topics.** `SensorDataHandler.CanHandle` accepts any topic that contains `/data` anywhere, not only device data topics.
- **Unauthorized-access sample.** The access contract test's unauthorized-card sample uses card uid `"E5F6G7H8"`, which `int(uid, 16)` rejects. The validator therefore returns one error for a message the test expects to pass.
- **Hexadecimal card uids.** The contract tests run on MicroPython, whose `int(s, 16)` steps over `_` anywhere in the digit run. The model's `Schema.ParsesAsHex` does the same, so `"ABCD_123"` passes the card_uid check (`AccessSchema.UnderscoredUidAccepted`).
- **Control payloads.** The control handler reads the `action` key. A payload that carries only `state` changes nothing.

## Model

| member | source | states |
|---|---|---|
| Json.PyLen | tests/contract/test_mqtt_environmental.py:125 | Python's `len()`: a length exactly for strings, lists and dicts, and the TypeError otherwise; `EnvironmentalSchema.UnsizedLocationRaises` carries the error into the validator |
| Countdown.TickBounds | esp32/outputs/rgb.py:36-41 | one update decrements a positive countdown by exactly one and never below 0; a countdown at 0 or below is left as it is; the holder is kept unless released |
| Countdown.InertCountdown | esp32/outputs/rgb.py:36-41 | with the countdown at 0 or below, any number of updates changes nothing |
| Countdown.HeldBeforeExpiry | esp32/outputs/rgb.py:36-41 | after k updates with k below the countdown, the holder is unchanged and the countdown is reduced by k |
| Countdown.ReleasedAtExpiry | esp32/outputs/rgb.py:36-41 | once as many updates as the countdown have run, the holder is cleared and the countdown is 0 |
| Countdown.ReleaseOnlyOnExpiry | esp32/outputs/rgb.py:36-41 | an update releases a held output if and only if its countdown was exactly 1 |
| Devices.RGB.SetColor | esp32/outputs/rgb.py:9-11 | the strip shows the colour set |
| Devices.RGB.TurnOff | esp32/outputs/rgb.py:13-15 | the strip is off |
| Devices.Fan.constructor | esp32/outputs/fan.py:4-7 | the fan's on-flag is unset (None) until the first on or off |
| Devices.Fan.On | esp32/outputs/fan.py:9-12 | the flag reads True and the motor runs |
| Devices.Fan.TurnOff | esp32/outputs/fan.py:14-17 | the flag reads False and the motor stops |
| Devices.Fan.IsOn | esp32/outputs/fan.py:19-20 | returns the last value set |
| Devices.Servo.Open | esp32/outputs/servo.py:25-27 | the servo's pin is commanded open and no other pin changes |
| Devices.Servo.Close | esp32/outputs/servo.py:29-31 | the servo's pin is commanded closed and no other pin changes |
| Devices.Buzzer.constructor | esp32/outputs/buzzer.py:4-6 | the buzzer starts silent |
| Devices.Buzzer.Start | esp32/outputs/buzzer.py:8-10 | the buzzer sounds |
| Devices.Buzzer.Stop | esp32/outputs/buzzer.py:12 | the buzzer is silent |
| Devices.TextScreen | esp32/display/oled.py:9-15 | each shown line is a prefix of the requested line of at most 16 characters, and an empty second line leaves the bottom row empty |
| Devices.Oled.ShowText | esp32/tests/test_oled.py:10-13 | reports success and the display shows the two lines cut to 16 columns |
| Devices.Oled.Clear | esp32/tests/test_oled.py:16-19 | reports success and the display is blank |
| RgbOutput.RGBManager.constructor | esp32/outputs/rgb.py:20-24 | a new manager is idle: no owner, countdown 0 |
| RgbOutput.RGBManager.Show | esp32/outputs/rgb.py:26-34 | the result is the arbitration decision on the old owner; owner and countdown become the new grant exactly when granted; the strip takes the colour only when granted |
| RgbOutput.RGBManager.Update | esp32/outputs/rgb.py:36-41 | owner and countdown advance by one tick, and the strip goes off exactly on the update that releases |
| RgbOutput.Priority | esp32/outputs/rgb.py:24 | the priority table; `PriorityOrder` states its order and its four keys |
| RgbOutput.PriorityOrder | esp32/outputs/rgb.py:24 | gas > rfid > steam > motion, and exactly these four tags have a priority |
| RgbOutput.IdleStripGranted | esp32/outputs/rgb.py:26-34 | an idle strip is granted to any tag, with owner and countdown set to the request |
| RgbOutput.HeldStripArbitration | esp32/outputs/rgb.py:28-34 | between known tags, a held strip is granted iff the requester's priority is strictly higher, refused iff it is equal or lower, and a refusal leaves owner and countdown unchanged |
| RgbOutput.SameOwnerRefused | esp32/outputs/rgb.py:28-29 | the current owner asking again is refused and its countdown is not refreshed |
| RgbOutput.GasIsNeverPreempted | esp32/outputs/rgb.py:24-29 | no request takes the strip from the gas owner |
| RgbOutput.UnknownTagRaises | esp32/outputs/rgb.py:24-28 | on a held strip, show raises KeyError iff the requester or the holder has no priority |
| RgbOutput.GrantExpiresAfterDuration | esp32/outputs/rgb.py:31-41 | after a grant of duration D > 0 on an idle strip, the owner is still held after D-1 updates and released after D |
| RgbOutput.ZeroDurationNeverReleased | esp32/outputs/rgb.py:32-37 | a grant of duration 0 or less is still held after any number of updates |
| RgbOutput.RgbManagerTests | esp32/tests/test_rgb.py:26-35 | a fresh manager grants 'gas', refuses a repeat by 'gas', and one update leaves countdown 0 and the strip off |
| FanOutput.FanManager.constructor | esp32/outputs/fan.py:23-25 | the manager starts off and its fan's flag is unset |
| FanOutput.FanManager.On | esp32/outputs/fan.py:27-29 | the manager and its fan both read on, and the motor runs |
| FanOutput.FanManager.TurnOff | esp32/outputs/fan.py:31-33 | the manager and its fan both read off, and the motor stops |
| FanOutput.FanManager.Update | esp32/outputs/fan.py:35-36 | nothing changes |
| FanOutput.FanTests | esp32/tests/test_fan.py:9-16 | the fan reads None, then True after on, then False after off |
| FanOutput.FanManagerRepeats | esp32/outputs/fan.py:22-36 | on twice and off twice are idempotent, and update keeps the state |
| OledOutput.OLEDManager.constructor | esp32/tests/test_oled.py:26-28 | a new manager is idle |
| OledOutput.OLEDManager.Show | esp32/tests/test_oled.py:26-28 | the result is the admission decision; a granted request takes owner and countdown and shows its two lines; a refused one changes nothing |
| OledOutput.OLEDManager.Update | esp32/tests/test_oled.py:31-42 | owner and countdown advance by one tick, and the display is cleared exactly on the update that releases |
| OledOutput.OledTests | esp32/tests/test_oled.py:10-19 | in the suite's order (names sorted): clear and then show_text both report True, and the text stays on the display |
| OledOutput.OledManagerTests | esp32/tests/test_oled.py:26-42 | show on a fresh manager is granted, a 3-tick show counts 2, 1, 0, and then there is no owner and the display is blank |
| ServoOutput.DoorServoManager.constructor | esp32/tests/test_servo.py:26-29 | the manager drives the door pin, starts closed with countdown 0 |
| ServoOutput.DoorServoManager.Open | esp32/tests/test_servo.py:26-29 | the door is open with the given countdown, and only the door pin changes |
| ServoOutput.DoorServoManager.Close | esp32/tests/test_servo.py:32-35 | the door is closed with no countdown left, and only the door pin changes |
| ServoOutput.DoorServoManager.Update | esp32/tests/test_servo.py:38-49 | the countdown advances by one tick; the door closes exactly on the update that releases and is otherwise untouched |
| ServoOutput.ServoTests | esp32/tests/test_servo.py:10-19 | the servo reads open after open, closed after close |
| ServoOutput.DoorServoManagerTests | esp32/tests/test_servo.py:26-49 | in the suite's order (names sorted): close leaves the door closed, open opens it, and after open(3) the countdown reads 2, 1, 0 and the door ends closed |
| BuzzerOutput.BuzzerManager.constructor | esp32/tests/test_buzzer.py:26-29 | a new manager is silent with countdown 0 |
| BuzzerOutput.BuzzerManager.Start | esp32/tests/test_buzzer.py:26-29 | the buzzer sounds with the given countdown |
| BuzzerOutput.BuzzerManager.Stop | esp32/tests/test_buzzer.py:32-35 | the buzzer is silent with no countdown left |
| BuzzerOutput.BuzzerManager.Update | esp32/tests/test_buzzer.py:38-49 | the countdown advances by one tick; the buzzer stops exactly on the update that releases |
| BuzzerOutput.BuzzerTests | esp32/tests/test_buzzer.py:10-19 | the buzzer runs after start and not after stop |
| BuzzerOutput.BuzzerManagerTests | esp32/tests/test_buzzer.py:26-49 | start then stop, and after start(3) the countdown reads 2, 1, 0 and the buzzer ends silent |
| ControlHandler.VerdictOf | esp32/handlers/control_handler.py:13-21 | the payload is a grant iff its 'access' key holds "granted", a denial iff it holds "denied" |
| ControlHandler.ActionOf | esp32/handlers/control_handler.py:26-36 | a command exists iff the payload has a string under 'action' |
| ControlHandler.ControlHandler.constructor | esp32/handlers/control_handler.py:2-7 | the handler holds the four managers it is given, and a board that stands for the window servo and fan that control_handler.py builds inside its handlers |
| ControlHandler.ControlHandler.HandleRfidResponse | esp32/handlers/control_handler.py:9-24 | a verdict asks the strip for rfid for 3 ticks (green or red); unless that raises, the display shows ACCESS/GRANTED or ACCESS/DENIED if admitted, a grant opens the door for 5 and a denial sounds the buzzer for 5; no verdict changes nothing; the door servo and its pin on the board open exactly when the grant goes through, every other pin keeps its position, and the buzzer driver runs exactly when the denial goes through |
| ControlHandler.ControlHandler.HandleDoorControl | esp32/handlers/control_handler.py:26-36 | 'open' opens the door for 5 ticks, 'close' closes it at once whoever opened it, anything else changes nothing; the servo driver and the door pin on the board follow, every other pin keeps its position |
| ControlHandler.ControlHandler.HandleWindowControl | esp32/handlers/control_handler.py:38-51 | 'open' and 'close' command the window pin, anything else changes no servo |
| ControlHandler.ControlHandler.HandleFanControl | esp32/handlers/control_handler.py:53-66 | 'on' runs the motor, 'off' stops it, anything else leaves it |
| ControlHandler.StateOnlyPayloadIgnored | esp32/handlers/control_handler.py:31 | a payload carrying only 'state' has neither a command nor a verdict |
| ControlHandler.FanCommandBypassesManager | esp32/handlers/control_handler.py:53-66 | after an 'on' command the motor runs while the fan manager still reads off |
| ControlHandler.GrantWhileGasHoldsStrip | esp32/handlers/control_handler.py:9-24 | a grant while gas holds the strip leaves the strip red, yet opens the door and shows ACCESS/GRANTED |
| ControlHandler.GrantAfterUnknownHolder | esp32/handlers/control_handler.py:9-24 | a grant while a tag without priority holds the strip raises at the strip: the door stays closed and the display blank |
| GasHandler.GasHandler.constructor | esp32/handlers/gas_handler.py:4-6 | the alarm starts inactive |
| GasHandler.GasHandler.HandleGasDetection | esp32/handlers/gas_handler.py:8-64 | only a reading that differs from the latch acts: it sets the latch to the reading, turns the strip red and the fan on (or off and off), and publishes the gas and fan reports; otherwise nothing changes or is published |
| GasHandler.LatchFollowsReading | esp32/handlers/gas_handler.py:22-61 | after any poll the latch equals the reading |
| GasHandler.ReportsAlternate | esp32/handlers/gas_handler.py:8-64 | over a run of polls, the reported alarm states alternate, the first opposite to the starting latch |
| GasHandler.LastReportIsLatch | esp32/handlers/gas_handler.py:8-64 | the last reported state of a run is the latch the run leaves; a run with no report leaves the latch unchanged |
| GasHandler.FirstReportIsDetection | esp32/handlers/gas_handler.py:22-41 | from an inactive start the first report is a detection, and no two consecutive reports agree |
| GasHandler.GasPersists | esp32/handlers/gas_handler.py:8-64 | two polls seeing gas publish the gas and fan reports once; the second poll publishes nothing and the strip stays red |
| ButtonHandler.ButtonHandler.constructor | esp32/handlers/button_handler.py:4-11 | both channels start enabled, released and with no pending press |
| ButtonHandler.ButtonHandler.SenseButtons | esp32/handlers/button_handler.py:19-27 | each channel records its pin level and flags a press on a 1-to-0 edge |
| ButtonHandler.ButtonHandler.ToggleGas | esp32/handlers/button_handler.py:29-34 | a pending gas press flips the gas alarm flag, clears the press and requests "Gas Alarm" with the new status for 3 ticks; the PIR channel is untouched |
| ButtonHandler.ButtonHandler.TogglePir | esp32/handlers/button_handler.py:36-41 | a pending PIR press flips the motion flag, clears the press and requests "Motion Sensor" with the new status for 3 ticks; the gas channel is untouched |
| ButtonHandler.ButtonHandler.HandleButtons | esp32/handlers/button_handler.py:13-41 | each channel takes one sense-and-toggle step, the display requests are those the toggles announce, and the display ends as those requests leave it |
| ButtonHandler.EdgeTriggered | esp32/handlers/button_handler.py:19-34 | with no press pending, a step toggles iff the pin was high and is now low; the flag flips exactly then and nothing stays pending |
| ButtonHandler.HeldDoesNotToggle | esp32/handlers/button_handler.py:19-34 | a button already held down toggles nothing however long it stays down |
| ButtonHandler.HoldTogglesOnce | esp32/handlers/button_handler.py:19-34 | pressing and holding toggles exactly once |
| ButtonHandler.FlagParity | esp32/handlers/button_handler.py:13-41 | after any run the flag has flipped iff an odd number of toggles occurred |
| ButtonHandler.GasButtonPressAndRelease | esp32/handlers/button_handler.py:13-34 | press and release of the gas button disables the gas alarm, leaves motion enabled, and announces "Gas Alarm"/"Disabled" once |
| MotionHandler.MotionHandler.constructor | esp32/handlers/motion_handler.py:6-8 | the count starts at 0 |
| MotionHandler.MotionHandler.HandleMotionDetection | esp32/handlers/motion_handler.py:10-47 | a detection sets the count to 3, paints the strip orange and publishes {"detected": true}; a positive count is then decremented, and the strip goes off when it reaches 0 |
| MotionHandler.CountBounds | esp32/handlers/motion_handler.py:18-45 | between calls the count stays in 0..2; a detecting call leaves 2 and never switches off; a quiet call at 0 changes nothing |
| MotionHandler.QuietCountdown | esp32/handlers/motion_handler.py:42-45 | with no motion, a count c runs down one per call to 0, and only call number c turns the strip off |
| MotionHandler.DetectionThenQuiet | esp32/handlers/motion_handler.py:18-45 | after a detection, the strip goes off on the second quiet call and on no other, and the count is 0 from then on |
| MotionHandler.DetectionRestarts | esp32/handlers/motion_handler.py:18-26 | a detection restarts the countdown: runs from any two counts end alike |
| MotionHandler.MotionOverridesGasColour | esp32/handlers/motion_handler.py:10-47 | motion paints over the gas alarm's red and later turns the strip off while the alarm is still raised |
| EnvironmentHandler.EnvironmentHandler.constructor | esp32/handlers/environment_handler.py:4-7 | no reading has been recorded |
| EnvironmentHandler.EnvironmentHandler.HandleEnvironmentDetection | esp32/handlers/environment_handler.py:9-56 | a failed read does and publishes nothing; a successful one requests a 10-tick redraw iff it differs from the last recorded pair, records it then, and publishes temperature in "C" and humidity in "%" |
| EnvironmentHandler.RepeatedReadingNotRedrawn | esp32/handlers/environment_handler.py:27-30 | after a read the recorded pair is that read, so an equal read is not redrawn and any different one is |
| EnvironmentHandler.FirstReadingDrawn | esp32/handlers/environment_handler.py:27-30 | the first successful read is always drawn |
| EnvironmentHandler.ReadingPayloadFields | esp32/handlers/environment_handler.py:33-51 | a published payload carries sensor_type, value, unit and timestamp, and no location or status |
| EnvironmentHandler.PublishedReadingsFailSchema | esp32/handlers/environment_handler.py:33-51 | each published reading fails the environmental schema with exactly one error, its unit |
| EnvironmentHandler.SteadyReading | esp32/handlers/environment_handler.py:9-56 | the same reading twice is drawn once but published both times; a failed read in between does nothing |
| TimeSync.TimeSync.constructor | esp32/utils/time_sync.py:5-9 | the offset is 39600 seconds, night runs from hour 20 to hour 7, and no sync is recorded |
| TimeSync.TimeSync.GetLocalTime | esp32/utils/time_sync.py:20-23 | the calendar reading of the clock plus the offset; `LocalTimeIsShiftedUtc` proves it converts back to utc + 39600 |
| TimeSync.TimeSync.IsNighttime | esp32/utils/time_sync.py:25-28 | `hour >= 20 or hour < 7` on the local hour; `NightWindow` proves this holds iff the UTC hour is in 9..19 |
| TimeSync.TimeSync.GetIsoTimestamp | esp32/utils/time_sync.py:30-35 | the local reading formatted with a trailing 'Z'; `IsoTimestampShape` gives its layout and `LocalStampIsElevenHoursLate` proves that, read as UTC, it is 11 hours late |
| TimeSync.TimeSync.UtcIsoTimestamp | esp32/utils/time_sync.py:30-35 | the corrected stamp, formatted from UTC itself; `UtcStampIsExact` proves it names the clock reading |
| TimeSync.TimeSync.SyncTime | esp32/utils/time_sync.py:11-18 | returns whether NTP succeeded, and records the sync time only on success |
| TimeSync.Localtime | esp32/utils/time_sync.py:20-23 | the broken-down time has a month 1-12, a day 1-31, and an hour, minute and second in range |
| TimeSync.LocaltimeRoundTrip | esp32/utils/time_sync.py:20-23 | converting the broken-down time back gives the seconds since the epoch it came from |
| TimeSync.LocalTimeIsShiftedUtc | esp32/utils/time_sync.py:5-23 | the offset is 11 hours, and local time is the UTC reading shifted by it |
| TimeSync.NightWindow | esp32/utils/time_sync.py:25-28 | it is night iff the local hour is outside 7..19, that is iff the UTC hour is in 9..19 |
| TimeSync.IsoRoundTrip | esp32/utils/time_sync.py:30-35 | the formatted stamp is 20 characters and parses back to the date-time it came from |
| TimeSync.IsoTimestampShape | esp32/utils/time_sync.py:30-35 | the stamp has its dashes, 'T', colons and trailing 'Z' in place |
| TimeSync.LocalStampIsElevenHoursLate | esp32/utils/time_sync.py:30-35 | read as UTC, the stamp names an instant 11 hours after the clock reading |
| TimeSync.UtcStampIsExact | esp32/utils/time_sync.py:30-35 | the corrected stamp names exactly the clock reading it was made from |
| MqttClient.SmartHomeMqttClient.constructor | esp32/comms/mqtt_client.py:7-8 | no callbacks are registered |
| MqttClient.SmartHomeMqttClient.Publish | esp32/comms/mqtt_client.py:39-49 | returns True iff the broker accepted, and only an accepted message is sent |
| MqttClient.SmartHomeMqttClient.Dispatch | esp32/comms/mqtt_client.py:51-57 | a message is handed to a callback iff its topic is registered, and then to that topic's callback with the topic and message |
| MqttClient.SmartHomeMqttClient.Subscribe | esp32/comms/mqtt_client.py:59-67 | the callback is registered whatever the broker says; the call returns None on success and False on failure |
| MqttClient.SmartHomeMqttClient.SubscribeChecked | esp32/comms/mqtt_client.py:59-67 | the corrected subscribe registers the same way and returns exactly whether the broker accepted |
| MqttClient.ResubscribeThenDispatch | esp32/comms/mqtt_client.py:59-67 | a second subscription to a topic replaces the first callback, even when the broker refused it |
| MqttClient.DispatchUnregistered | esp32/comms/mqtt_client.py:51-57 | a topic nobody subscribed to dispatches nothing |
| MqttClient.ArchivedSubscribeCheck | esp32/tests/archive/comms/test_mqtt.py:25 | the archived test's success check on subscribe never succeeds |
| MqttClient.CheckedSubscribeCheck | esp32/tests/archive/comms/test_mqtt.py:25 | against the corrected subscribe, the check reports exactly the broker's answer |
| Rfid.UidBytes | esp32/sensors/rfid.py:16-22 | the UID slice holds the first size bytes, cut at the end of the buffer |
| Rfid.RFIDSensor.constructor | esp32/sensors/rfid.py:5-8 | the driver's ten-byte buffer is zero and no card has been read |
| Rfid.RFIDSensor.ScanCard | esp32/sensors/rfid.py:10-14 | a card is reported only when one is present, and then exactly when its serial was read |
| Rfid.RFIDSensor.GetCardId | esp32/sensors/rfid.py:16-22 | None for a size of 0; otherwise the decimal renderings of the UID bytes, concatenated |
| Rfid.RFIDSensor.ClearCard | esp32/sensors/rfid.py:24-28 | the size is 0 and all ten buffer bytes are 0 |
| Rfid.CardIdAppend | esp32/sensors/rfid.py:16-22 | the card id of two byte runs is the concatenation of their card ids |
| Rfid.CardIdLength | esp32/sensors/rfid.py:16-22 | n bytes render in n to 3n characters, all digits |
| Rfid.CardIdNotInjective | esp32/sensors/rfid.py:16-22 | the UIDs [1, 23] and [12, 3] both render as "123" |
| Rfid.ClearedCardReadsNone | esp32/sensors/rfid.py:16-28 | a card read renders as its id, and after clear_card the sensor reports no card |
| Pir.TicksDiff | embedded/sensors/pir.py:13-19 | the tick difference lies in [-2^29, 2^29) and is congruent to the plain difference modulo the tick period |
| Pir.TicksDiffExact | embedded/sensors/pir.py:13-19 | between ticks less than half a period apart, the tick difference is the plain difference |
| Pir.PIRSensor.constructor | embedded/sensors/pir.py:5-8 | the last trigger is 0 and the debounce is 500 ms |
| Pir.PIRSensor.IsMotionDetected | embedded/sensors/pir.py:13-19 | motion is reported iff the pin is high and more than 500 ms have passed since the last trigger, and only then is the trigger time updated |
| Pir.TriggersSpaced | embedded/sensors/pir.py:13-19 | in any run, every reported motion is more than 500 ms after the one before it, and the sensor keeps the last one |
| Pir.LowPinNeverTriggers | embedded/sensors/pir.py:13-19 | a low pin never reports motion and leaves the trigger time alone |
| Pir.HeldHighEvery100ms | embedded/sensors/pir.py:13-19 | a pin held high and read every 100 ms reports at 1000 and 1600 and at no reading between |
| SensorDataHandler.CanHandle | api/Services/Mqtt/SensorDataHandler.cs:17-20 | a topic is handled iff "/data" occurs in it somewhere |
| SensorDataHandler.SensorDataHandler.constructor | api/Services/Mqtt/SensorDataHandler.cs:14-15 | both cached readings start empty |
| SensorDataHandler.SensorDataHandler.HandleAsync | api/Services/Mqtt/SensorDataHandler.cs:22-36 | the message replaces the cached reading of its type; a null payload or another type changes nothing |
| SensorDataHandler.SensorDataHandler.GetLatestReadings | api/Services/Mqtt/SensorDataHandler.cs:38-44 | returns both cached readings |
| SensorDataHandler.ApplyTouchesOneSlot | api/Services/Mqtt/SensorDataHandler.cs:22-36 | one message changes at most the slot its type names, and only to itself |
| SensorDataHandler.ReplayKeepsLatest | api/Services/Mqtt/SensorDataHandler.cs:22-44 | after a run of messages the cache holds the run's latest temperature and latest humidity, or what it held before when the run had none |
| SensorDataHandler.FirmwareTopics | api/Services/Mqtt/SensorDataHandler.cs:17-20 | the firmware's data topic is handled; its fan-status and motion topics are not |
| SensorDataHandler.GasAndNullIgnored | api/Services/Mqtt/SensorDataHandler.cs:22-44 | gas readings and null payloads leave the cache alone |
| Schema.CheckRequired | tests/contract/test_mqtt_access.py:96-98 | one missing-field error per required field absent, in order |
| Schema.MissingErrorsExact | tests/contract/test_mqtt_access.py:96-98 | a missing-field error is reported iff the field is required and absent |
| Schema.MissingErrorsOnce | tests/contract/test_mqtt_access.py:96-98 | with distinct required fields, each absent one is reported exactly once |
| Schema.NoMissingErrorsIff | tests/contract/test_mqtt_access.py:96-98 | no missing-field errors iff every required field is present |
| Schema.CheckElements | tests/contract/test_mqtt_security.py:118-122 | one error per list element outside the allowed values, in order |
| Schema.ElementErrorsExact | tests/contract/test_mqtt_security.py:118-122 | the errors correspond one to one with the disallowed elements, and there are none iff every element is allowed |
| Schema.ParsesAsHex | tests/contract/test_mqtt_access.py:109-112 | MicroPython's `int(s, 16)` succeeds: optional white space, sign and `0x` prefix, then a non-empty run of hex digits and `_`; `HexDigitsParse`, `UnderscoreBetweenDigitsParses` and `AccessSchema.E5F6G7H8NotHex` state what it accepts and rejects |
| Schema.HexDigitsParse | tests/contract/test_mqtt_access.py:109-112 | a non-empty string of hex digits parses as base 16 |
| Schema.UnderscoreBetweenDigitsParses | tests/contract/test_mqtt_access.py:109-112 | two hex digit strings joined by an underscore parse as base 16, as MicroPython's `int(s, 16)` skips `_` |
| AccessSchema.ValidateAccessSchema | tests/contract/test_mqtt_access.py:79-139 | returns exactly the access error list |
| AccessSchema.NoErrorsIffConforms | tests/contract/test_mqtt_access.py:91-139 | no errors iff every field rule of the access schema holds |
| AccessSchema.MissingReportedIff | tests/contract/test_mqtt_access.py:91-98 | a field is reported missing iff it is required and absent |
| AccessSchema.UserNameOptional | tests/contract/test_mqtt_access.py:125-132 | user_name is never reported missing |
| AccessSchema.AuthorizedAccessFields | tests/contract/test_mqtt_access.py:143-150 | the authorized sample carries the listed field values |
| AccessSchema.AuthorizedAccessValid | tests/contract/test_mqtt_access.py:141-168 | the authorized sample passes |
| AccessSchema.UnauthorizedAccessFields | tests/contract/test_mqtt_access.py:172-179 | the unauthorized sample carries the listed field values |
| AccessSchema.UnderscoredUidAccepted | tests/contract/test_mqtt_access.py:101-112 | a card uid `ABCD_123` draws no card_uid error |
| AccessSchema.E5F6G7H8NotHex | tests/contract/test_mqtt_access.py:109-112 | "E5F6G7H8" does not parse as hex |
| AccessSchema.UnauthorizedAccessRejectedForHex | tests/contract/test_mqtt_access.py:170-195 | the unauthorized sample gets exactly one error, its non-hex card uid |
| AccessSchema.InvalidAccessRejected | tests/contract/test_mqtt_access.py:281-296 | the invalid sample gets at least four errors |
| EnvironmentalSchema.ValidateMessageSchema | tests/contract/test_mqtt_environmental.py:78-128 | returns exactly the environmental outcome, an error list or a raised TypeError |
| EnvironmentalSchema.NoErrorsIffConforms | tests/contract/test_mqtt_environmental.py:90-128 | an empty error list iff every field rule of the environmental schema holds |
| EnvironmentalSchema.OptionalFieldsNotRequired | tests/contract/test_mqtt_environmental.py:90-98 | location and status are never reported missing |
| EnvironmentalSchema.UnsizedLocationRaises | tests/contract/test_mqtt_environmental.py:123-126 | a location without a length makes the check raise |
| EnvironmentalSchema.UnitOutsideEnumReported | tests/contract/test_mqtt_environmental.py:106-110 | a unit outside celsius, percent and ppm is reported |
| EnvironmentalSchema.FirmwareUnitsNotInEnum | tests/contract/test_mqtt_environmental.py:108 | "C" and "%" are not accepted units |
| EnvironmentalSchema.ReadingPasses | tests/contract/test_mqtt_environmental.py:90-128 | a reading whose every field is valid passes with no errors |
| EnvironmentalSchema.ValidReadingsPass | tests/contract/test_mqtt_environmental.py:130-215 | the temperature, humidity and gas samples pass |
| EnvironmentalSchema.InvalidReadingRejected | tests/contract/test_mqtt_environmental.py:217-230 | the invalid sample returns at least three errors |
| SecuritySchema.ValidateSecuritySchema | tests/contract/test_mqtt_security.py:79-130 | returns exactly the security error list |
| SecuritySchema.NoErrorsIffConforms | tests/contract/test_mqtt_security.py:91-130 | no errors iff every field rule of the security schema holds |
| SecuritySchema.LocationOnlyRequired | tests/contract/test_mqtt_security.py:91-98 | a present location of any type draws no location error |
| SecuritySchema.ArmEventFields | tests/contract/test_mqtt_security.py:218-225 | the arm sample carries the listed field values |
| SecuritySchema.DisarmEventFields | tests/contract/test_mqtt_security.py:228-235 | the disarm sample carries the listed field values |
| SecuritySchema.ArmEventValid | tests/contract/test_mqtt_security.py:215-258 | the arm sample passes |
| SecuritySchema.DisarmEventValid | tests/contract/test_mqtt_security.py:215-258 | the disarm sample passes |
| SecuritySchema.InvalidSecurityRejected | tests/contract/test_mqtt_security.py:260-275 | the invalid sample gets at least three errors |
| EmergencySchema.ValidateEmergencySchema | tests/contract/test_mqtt_emergency.py:82-140 | returns exactly the emergency error list |
| EmergencySchema.NoErrorsIffConforms | tests/contract/test_mqtt_emergency.py:94-140 | no errors iff every field rule of the emergency schema holds |
| EmergencySchema.ResponseOrderIgnored | tests/contract/test_mqtt_emergency.py:120-133 | any list of allowed responses passes, in any order and with repeats |
| EmergencySchema.SeverityAlertFields | tests/contract/test_mqtt_emergency.py:236-243 | the severity sample for level k carries the listed field values |
| EmergencySchema.SeverityResponsesAllowed | tests/contract/test_mqtt_emergency.py:225-259 | every response in a severity sample is allowed |
| EmergencySchema.SeverityAlertsValid | tests/contract/test_mqtt_emergency.py:225-259 | the severity samples for levels 1 to 5 pass |
| EmergencySchema.InvalidEmergencyRejected | tests/contract/test_mqtt_emergency.py:296-311 | the invalid sample gets at least four errors |
| SystemSchema.CheckBoolFields | tests/contract/test_mqtt_system.py:108-113 | one error per present flag that is not a boolean |
| SystemSchema.BoolFieldErrorsExact | tests/contract/test_mqtt_system.py:108-113 | a flag is reported iff it is present and not a boolean |
| SystemSchema.CheckOverrides | tests/contract/test_mqtt_system.py:115-127 | a key error and a value error for each override entry that has them, in entry order |
| SystemSchema.NoOverrideErrorsIff | tests/contract/test_mqtt_system.py:115-127 | no override errors iff every key is allowed and every value a boolean |
| SystemSchema.CheckDevices | tests/contract/test_mqtt_system.py:129-141 | one error per device whose status is not allowed |
| SystemSchema.NoDeviceErrorsIff | tests/contract/test_mqtt_system.py:129-141 | no device errors iff every status is allowed |
| SystemSchema.CheckCounts | tests/contract/test_mqtt_system.py:149-154 | one error per present count that is not a non-negative integer |
| SystemSchema.ValidateSystemStatusSchema | tests/contract/test_mqtt_system.py:82-156 | returns exactly the system-status error list |
| SystemSchema.NoErrorsIffConforms | tests/contract/test_mqtt_system.py:96-156 | no errors iff every field rule of the system-status schema holds |
| SystemSchema.OneOverrideTwoErrors | tests/contract/test_mqtt_system.py:123-127 | an unknown key holding a non-boolean draws both a key and a value error |
| SystemSchema.NormalEntriesValid | tests/contract/test_mqtt_system.py:160-178 | the normal sample's overrides and devices are all valid |
| SystemSchema.NormalStatusValid | tests/contract/test_mqtt_system.py:158-196 | the normal sample passes |
| SystemSchema.InvalidStatusRejected | tests/contract/test_mqtt_system.py:388-405 | the invalid sample gets at least six errors |

## Left out

- The OLED, door-servo and buzzer managers' own source is not part of this model. Their behaviour is taken from their tests and from the calls the handlers make.
- OLEDManager's arbitration between different tags is not fixed by anything shown. The model leaves that decision as a parameter, and requires only the two grants the tests rely on: an idle display to any tag, and a held display to its own holder.
- DoorServoManager and BuzzerManager: `close()`/`stop()` also clear the countdown. This is a modelling choice for what the tests leave open.
- PWM frequencies and duty cycles, pin objects, I2C and the character-display driver are left out. Each output is its observable state on the board.
- Devices.Oled.ShowText: its `true` result follows esp32/tests/test_oled.py, which imports `OLED` from `outputs.oled`. That driver's source is not part of this model. The display driver in esp32/display/oled.py returns None from `show_text`; the screen contents follow that file.
- Devices.Oled.Clear: likewise, `true` follows the test of the `outputs.oled` driver, while `clear` in esp32/display/oled.py returns None.
- Devices.Buzzer: `is_running` does not exist on the driver in esp32/outputs/buzzer.py, but the buzzer test reads it. The model keeps it as the last commanded state.
- OledOutput.OLEDManager.Update: clearing the display on the update that releases it is a modelling choice. The OLED manager's test asserts only the countdown and the owner.
- Json.Get: a decoded JSON object is an association list whose keys the model does not force to be distinct. Every object the model builds has distinct keys; with duplicates `Get` would return the first where `json.loads` keeps the last.
- `servo.is_open` does not exist on the driver in esp32/outputs/servo.py, but the servo test reads it. The model keeps it as the last commanded position.
- Floating-point readings are left out: the firmware's DHT11 values are integers here, and the API's `double` value is a Dafny `real`.
- `Memory.collect`, prints and log lines have no observable effect and are left out.
- The Supabase insert in the motion handler is left out. It is a network call whose failure is caught and logged.
- `ujson.loads` is left out: the control handler receives the decoded payload as `Option<Json>`, with `None` for a decode failure. On the API side, `JsonSerializer.Deserialize` throws `JsonException` on malformed JSON. The dispatcher catches it (api/Services/Mqtt/MqttBackgroundService.cs:106), so `SensorDataHandler.HandleAsync` stops before it touches its cache; in the model, `HandleAsync`'s `None` stands for a payload that deserialises to `null`, which the handler ignores.
- The lock in the API's handler is left out: calls are modelled one at a time.
- `connect`, `disconnect` and `check_messages` of the MQTT client are left out. They are broker I/O; each call's broker answer is a parameter.
- The results of `publish` that the handlers ignore are left out. Handlers return the messages they attempt.
- The MFRC522 driver's card detection and anticollision are left out. Their outcomes are the parameters of `ScanCard`.
- The PIR pin level and `ticks_ms()` are parameters of each call.
- NTP is modelled only by whether `settime` succeeded. The clock is a parameter counted in seconds since 1970-01-01, the Unix epoch. The MicroPython epoch of 2000-01-01 only moves the count.
- TimeSync.IsoRoundTrip: years from 10000 on are not given a parsing round-trip, because the `{:04d}` field widens there.
- The two button GPIO reads are the `gasDown`/`pirDown` parameters of `HandleButtons`.
- SensorDataHandler.SensorDataHandler.GetLatestReadings: the anonymous object the C# code returns is a pair of values here.

## Findings

| source | as written | input that shows it | evidently intended | confidence | as-written member | corrected member |
|---|---|---|---|---|---|---|
| esp32/comms/mqtt_client.py:59-67 | `subscribe` returns None when the broker accepts, and False when it refuses, while the archived test treats its result as a success flag (esp32/tests/archive/comms/test_mqtt.py:25) | any subscription the broker accepts: the test's `if` sees None and reports failure | `subscribe` returns True on success, so the check reports the broker's answer | not executed | MqttClient.ArchivedSubscribeCheck | MqttClient.CheckedSubscribeCheck |
| esp32/utils/time_sync.py:30-35 | the ISO stamp is formatted from local time (UTC+11) but ends in 'Z', which marks UTC | clock reading 0 (1970-01-01T00:00:00 UTC) gives "1970-01-01T11:00:00Z" | the stamp is formatted from UTC, so that the 'Z' is true | not executed | TimeSync.LocalStampIsElevenHoursLate | TimeSync.UtcStampIsExact |
