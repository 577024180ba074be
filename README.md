# Huawei R4875G1 rectifier driver — a Dafny model

This project models the native ESPHome component `HuaweiR4875G1`, a driver
for a Huawei R4875G1 rectifier that is monitored and controlled over a CAN
bus, together with its two polled sensor classes. The model proves what the
driver does:

- which incoming frames it accepts, and which reading slot each status
  response writes;
- how a response's big-endian value field becomes a calibrated reading;
- the exact bytes of the status request, the voltage and current settings
  and the enable/disable commands, and that the value fields decode back;
- that setpoints outside the configured limits send nothing and change
  nothing;
- the wrap-around arithmetic of the polling loop and of the online test;
- what the numeric and binary sensors publish.

Files, one module each:

- `wrappers.dfy` (`Wrappers`): the `Option` datatype.
- `wire.dfy` (`Wire`): the C++ fixed-width integers, wrap-around uint32
  addition and subtraction, and the big-endian 32-bit layout.
- `sensor_types.dfy` (`SensorTypes`): the `SensorType` enum and its integer values.
- `protocol.dfy` (`Protocol`): the pure parts of `huawei_r4875g1.cpp`. These
  are the CAN identifiers, the payload builders, the parameter-ID table of
  `process_status_frame_`, `parse_value_` and the float-to-`uint16_t` cast.
- `huawei_r4875g1.dfy` (`Driver`): three classes. `HuaweiR4875G1` keeps the
  source's fields, and its two 7-slot arrays are Dafny arrays. Its methods
  update them as the C++ does. `HuaweiSensor` and `HuaweiBinarySensor` are the
  polled sensors. `Canbus` stands in for the host framework's bus. Four
  client scenario methods come last.

Modelling choices:

- `millis()` becomes a parameter `now: uint32` of `Loop`, `OnCanMessage`,
  `IsOnline` and `HuaweiBinarySensor.Update`.
- `canbus_->send_data(frame)` becomes `Canbus.SendData`, which appends the
  frame to the bus's `sent` sequence. Each sending method says which frames
  were appended, through the two-state predicate `SentExactly`. A null bus
  receives nothing.
- `publish_state(x)` becomes the value that a sensor's `Update` returns.
- Floats become reals. The setpoint encoders take the deci-unit integer
  that `static_cast<uint16_t>(x * 10)` produces (`Protocol.DeciUnits`).
- `HuaweiR4875G1.Valid` is the object invariant: shape, plus "the channels
  with no calibration setter keep the default calibration".
  `HuaweiR4875G1.State` is a ghost function giving a snapshot of the scalar
  fields. Methods that change scalar fields state the new snapshot. The
  calibration setters state the new `calibrations[..]`. `ProcessStatusFrame`
  states the new `sensorValues[..]` through `StoredReading`. The sending
  methods state the frames handed to the bus through `SentExactly`. What a
  method does not name in its `modifies` frame does not change.
- Compute-only functions that model source code without a row of their
  own are each covered by the lemmas about them. `Protocol.ParseValue` is
  `parse_value_` (huawei_r4875g1.cpp:102-118). `Wire.DecodeBE32` and
  `Protocol.RawValue` are the big-endian read (huawei_r4875g1.cpp:107-110).
  `Wire.EncodeBE32` is the byte split (huawei_r4875g1.cpp:192-195).
  `Protocol.VoltagePayload` is the payload at huawei_r4875g1.cpp:190-196,
  `Protocol.CurrentPayload` the one at huawei_r4875g1.cpp:205-211, and
  `Protocol.ControlPayload` the one at huawei_r4875g1.cpp:217-220.

## Model

| member | source | states |
|---|---|---|
| `Wire.Sub32` | components/huawei_r4875g1/huawei_r4875g1.cpp:38 | uint32 `now - last` wraps modulo 2^32; adding the difference back to `last` (with wrap) gives `now` |
| `Wire.Sub32OfAdd32` | components/huawei_r4875g1/huawei_r4875g1.cpp:38 | wrapped subtraction undoes a wrapped addition of any uint32 amount |
| `Wire.WithinWindow` | components/huawei_r4875g1/huawei_r4875g1.h:37 | the wrapped elapsed time is below a bound iff `now` lies fewer than that many ticks after the start, across the 2^32 wrap |
| `Wire.DecodeEncodeBE32` | components/huawei_r4875g1/huawei_r4875g1.cpp:107-110 | reading back the four big-endian bytes of a uint32 gives the uint32 |
| `Wire.EncodeDecodeBE32` | components/huawei_r4875g1/huawei_r4875g1.cpp:192-195 | re-encoding the value of any four bytes gives the same bytes |
| `SensorTypes.Ordinal` | components/huawei_r4875g1/sensor_types.h:7-16 | every channel's enum value is below `SENSOR_TYPE_COUNT` (7) |
| `SensorTypes.FromOrdinal` | components/huawei_r4875g1/sensor_types.h:7-16 | an integer denotes a channel iff it lies in [0, 7), and exactly the channel with that enum value |
| `SensorTypes.OrdinalRoundTrip` | components/huawei_r4875g1/sensor_types.h:7-16 | enum values are distinct per channel and decode back to the channel |
| `Protocol.StatusRequestPayload` | components/huawei_r4875g1/huawei_r4875g1.cpp:52-56 | the status request is eight zero bytes |
| `Protocol.VoltagePayloadDecodes` | components/huawei_r4875g1/huawei_r4875g1.cpp:186-199 | the voltage payload is 01 00 00 00 then BE32(d * 102); it never uses the top byte, and d is recovered as value / 102 |
| `Protocol.CurrentPayloadDecodes` | components/huawei_r4875g1/huawei_r4875g1.cpp:201-214 | the current payload is 01 03 00 00 then BE32(floor(3d / 2)); it never uses the top byte, and d is recovered as (2 * value + 2) / 3 |
| `Protocol.SettingPayloadsInjective` | components/huawei_r4875g1/huawei_r4875g1.cpp:186-214 | distinct deci-unit setpoints give distinct voltage payloads and distinct current payloads |
| `Protocol.Trunc` | components/huawei_r4875g1/huawei_r4875g1.cpp:187 | the float-to-integer cast truncates toward zero: the result is within 1 of x, on the side of zero |
| `Protocol.DeciUnits` | components/huawei_r4875g1/huawei_r4875g1.cpp:202 | whenever the truncated tenths of x fit in `uint16_t` (-1 < 10x < 65536), the result is 10x truncated toward zero: floor(10x) for 10x >= 0, and 0 for -1 < 10x < 0 |
| `Protocol.SlotFor` | components/huawei_r4875g1/huawei_r4875g1.cpp:63-99 | parameter ID selects channel t iff the ID is in t's table entry (0x70 and 0x73 output power, 0x71 input frequency, 0x72 input current, 0x75 output voltage, 0x78 input voltage, 0x7F temperature, 0x81 output current); it selects nothing iff it is in no entry |
| `Protocol.ParseValueDefault` | components/huawei_r4875g1/huawei_r4875g1.cpp:102-118 | with the default calibration (1, 0), or for an out-of-range enum value, the reading is raw / 1024 with raw = BE32(data[4..7]), so it lies in [0, 2^22) |
| `Protocol.ParseValueAffine` | components/huawei_r4875g1/huawei_r4875g1.cpp:111-117 | a calibrated reading is the default-calibrated reading times the channel's multiplier plus its offset; no other channel's calibration matters |
| `Protocol.ParseValueReadsValueField` | components/huawei_r4875g1/huawei_r4875g1.cpp:107-111 | frames that agree on bytes 4..7 give the same reading |
| `Protocol.InputCurrentCalibrationExample` | components/huawei_r4875g1/huawei_r4875g1.cpp:72-75 | with input-current calibration (0.1, -5), an ID 0x72 response whose value field is 0x0001E000 reads 7.0 |
| `Driver.HuaweiR4875G1.constructor` | components/huawei_r4875g1/huawei_r4875g1.h:54-80 | initial state: no bus, interval 1000, last update 0, disabled, voltage limits [41.5, 58.5], current limits [0, 90.5], setpoints 53.5 / 50.0, last frame 0, offline timeout 5000, all readings 0, all calibrations (1, 0) |
| `Driver.HuaweiR4875G1.SetCanbus` | components/huawei_r4875g1/huawei_r4875g1.h:12 | stores the bus and changes no other field |
| `Driver.HuaweiR4875G1.SetUpdateInterval` | components/huawei_r4875g1/huawei_r4875g1.h:13 | stores the interval and changes no other field |
| `Driver.HuaweiR4875G1.SetInputVoltageCalibration` | components/huawei_r4875g1/huawei_r4875g1.cpp:132-134 | overwrites only the input-voltage calibration slot |
| `Driver.HuaweiR4875G1.SetOutputVoltageCalibration` | components/huawei_r4875g1/huawei_r4875g1.cpp:136-138 | overwrites only the output-voltage calibration slot |
| `Driver.HuaweiR4875G1.SetInputCurrentCalibration` | components/huawei_r4875g1/huawei_r4875g1.cpp:140-142 | overwrites only the input-current calibration slot |
| `Driver.HuaweiR4875G1.SetOutputCurrentCalibration` | components/huawei_r4875g1/huawei_r4875g1.cpp:144-146 | overwrites only the output-current calibration slot |
| `Driver.HuaweiR4875G1.SetVoltageLimits` | components/huawei_r4875g1/huawei_r4875g1.cpp:148-151 | stores only the voltage (min, max) pair |
| `Driver.HuaweiR4875G1.SetCurrentLimits` | components/huawei_r4875g1/huawei_r4875g1.cpp:153-156 | stores only the current (min, max) pair |
| `Driver.HuaweiR4875G1.SendCommand` | components/huawei_r4875g1/huawei_r4875g1.cpp:120-130 | with a bus, sends exactly one frame with the given id and data and the extended flag set; with no bus, sends nothing |
| `Driver.HuaweiR4875G1.RequestStatus` | components/huawei_r4875g1/huawei_r4875g1.cpp:52-56 | sends one eight-zero-byte frame to 0x108040FE |
| `Driver.HuaweiR4875G1.SendVoltageSetting` | components/huawei_r4875g1/huawei_r4875g1.cpp:186-199 | sends one voltage payload for the truncated deci-volts to 0x108180FE |
| `Driver.HuaweiR4875G1.SendCurrentSetting` | components/huawei_r4875g1/huawei_r4875g1.cpp:201-214 | sends one current payload for the truncated deci-amps to 0x108180FE |
| `Driver.HuaweiR4875G1.SendControlCommand` | components/huawei_r4875g1/huawei_r4875g1.cpp:216-222 | sends one frame 01 32 00 cmd 00 00 00 00 to 0x108180FE |
| `Driver.HuaweiR4875G1.Setup` | components/huawei_r4875g1/huawei_r4875g1.cpp:16-34 | with a bus, sends one initial status request; with no bus, nothing |
| `Driver.HuaweiR4875G1.Loop` | components/huawei_r4875g1/huawei_r4875g1.cpp:36-43 | when (now - last_update) mod 2^32 >= interval, sets last_update to now and hands one status request to the bus, if one is set; otherwise changes and sends nothing |
| `Driver.LoopPollsWhen` | components/huawei_r4875g1/huawei_r4875g1.cpp:38-41 | the loop polls iff `now` is not within `interval` ticks after `lastUpdate` (0 until the first poll made by the loop; the request sent by `setup` does not set it), across the wrap |
| `Driver.HuaweiR4875G1.OnCanMessage` | components/huawei_r4875g1/huawei_r4875g1.cpp:45-50 | a frame with id 0x1081407F and at least 8 bytes sets the last frame time to now, stores its reading and makes the unit online at now; any other frame changes nothing |
| `Driver.HuaweiR4875G1.ProcessStatusFrame` | components/huawei_r4875g1/huawei_r4875g1.cpp:58-100 | exactly the slot that `data[1]` selects receives the frame's calibrated reading; an unhandled ID changes no slot |
| `Driver.HuaweiR4875G1.UncalibratedChannels` | components/huawei_r4875g1/huawei_r4875g1.cpp:132-146 | input frequency, output power and temperature have no setter, so they always read raw / 1024 |
| `Driver.HuaweiR4875G1.SetVoltage` | components/huawei_r4875g1/huawei_r4875g1.cpp:158-165 | outside [min, max], no frame and no change; inside, one voltage-setting frame and the setpoint recorded, nothing else changed |
| `Driver.HuaweiR4875G1.SetCurrent` | components/huawei_r4875g1/huawei_r4875g1.cpp:167-174 | outside [min, max], no frame and no change; inside, one current-setting frame and the setpoint recorded, nothing else changed |
| `Driver.HuaweiR4875G1.Enable` | components/huawei_r4875g1/huawei_r4875g1.cpp:176-179 | sends one control frame with command 0x00 and sets enabled, nothing else changed (so repeating it gives the same state) |
| `Driver.HuaweiR4875G1.Disable` | components/huawei_r4875g1/huawei_r4875g1.cpp:181-184 | sends one control frame with command 0x01 and clears enabled, nothing else changed |
| `Driver.HuaweiR4875G1.GetSensorValue` | components/huawei_r4875g1/huawei_r4875g1.cpp:224-230 | the stored reading of the channel an in-range enum value denotes; 0 for an out-of-range value |
| `Driver.HuaweiR4875G1.IsOnline` | components/huawei_r4875g1/huawei_r4875g1.h:37 | online iff `now` lies fewer than offline-timeout ms after `lastFrameTime`, across the 2^32 wrap; `lastFrameTime` is 0 until the first accepted frame |
| `Driver.HuaweiR4875G1.OnlineBeforeFirstFrame` | components/huawei_r4875g1/huawei_r4875g1.h:79-80 | while no frame has been accepted (`last_frame_time_` still 0), the unit reads online exactly when now < 5000, with nothing received |
| `Driver.HuaweiSensor.constructor` | components/huawei_r4875g1/huawei_r4875g1.h:86-87 | stores the parent driver and the channel |
| `Driver.HuaweiSensor.Update` | components/huawei_r4875g1/huawei_r4875g1.h:89-92 | publishes the parent's stored reading for the sensor's channel |
| `Driver.HuaweiBinarySensor.constructor` | components/huawei_r4875g1/huawei_r4875g1.h:102 | stores the parent driver |
| `Driver.HuaweiBinarySensor.Update` | components/huawei_r4875g1/huawei_r4875g1.h:104-107 | publishes false whenever the unit is disabled; when enabled, publishes whether the unit is online at `now` |
| `Driver.DefaultVoltageLimitsEncodeExactly` | components/huawei_r4875g1/huawei_r4875g1.h:69-70 | a setpoint within the default voltage limits has 415..585 deci-volts and a value field of at most 59670, so no cast wraps |
| `Driver.DefaultCurrentLimitsEncodeExactly` | components/huawei_r4875g1/huawei_r4875g1.h:71-72 | a setpoint within the default current limits has 0..905 deci-amps and a value field of at most 1357 |

## Left out

- The Python files (`components/__init__.py`, `components/huawei_r4875g1/__init__.py`, `components/huawei_r4875g1/sensor.py`). They are configuration schema and code generation for the host framework and have no logic of their own.
- Driver.HuaweiR4875G1.Setup: covers only the initial status request. Registering the listener and the CAN filter are calls into the host framework.
- Logging (`ESP_LOG*`) is left out. It only reports and never changes state.
- `PollingComponent` scheduling is left out: the 1000 ms update period of the two sensors, and when `loop` and `update` are called. The model's operations are the bodies that the scheduler would call.
- The real bus is left out: its send path, possible transmit failures, and delivery of received frames. `Canbus` only records what it is handed.
- IEEE single-precision behaviour is left out. Readings, calibrations, limits and setpoints are reals. So `raw / 1024`, the multiply and add of the calibration, and the limit comparisons are exact. A NaN setpoint, which passes both range comparisons in C++, cannot be expressed.
- Protocol.DeciUnits: when the truncated tenths lie outside [0, 65535], that is for 10x <= -1 or 10x >= 65536, the C++ `static_cast<uint16_t>` has undefined behaviour. The model truncates toward zero and wraps modulo 2^16, and proves nothing about that case beyond it being a `uint16_t`. Under the default limits this case cannot arise (`DefaultVoltageLimitsEncodeExactly`, `DefaultCurrentLimitsEncodeExactly`).
- `HuaweiR4875G1.IsEnabled` returns the `enabled` field and carries no contract of its own. Its use is stated through `HuaweiBinarySensor.Update`.
- `HuaweiSensor` stores its channel as a `SensorType`. The generated code only ever passes enum constants, so it cannot hold an out-of-range value. The out-of-range branch of `get_sensor_value` is modelled in `GetSensorValue`, which takes an integer.
- The driver has no fault or alarm state: readings are never compared with the limits, which gate only outgoing setpoints. Any update interval is accepted, and an interval of 0 polls on every pass. Sending reports nothing back to the caller. The reading slot is chosen by the parameter-ID byte `data[1]`. Calibration multiplies `raw / 1024`.
