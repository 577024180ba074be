/** The pure parts of the R4875G1 driver: the CAN identifiers it uses, the
    payloads it builds, the table that maps the parameter-ID byte of a
    status response to a channel, and the conversion of a response's value
    field into a calibrated reading. Floats are modelled as reals. */
module Protocol {

  import opened Wrappers
  import opened Wire
  import opened SensorTypes

  /** Identifier of the status request the driver polls with. */
  const StatusRequestId: uint32 := 0x108040FE
  /** Identifier of the status responses the driver accepts. */
  const StatusResponseId: uint32 := 0x1081407F
  /** Identifier of every setting and control command. */
  const SetCommandId: uint32 := 0x108180FE

  /** Control command bytes of `enable()` and `disable()`. */
  const EnableCommand: uint8 := 0x00
  const DisableCommand: uint8 := 0x01

  /** One CAN frame: identifier, extended-identifier flag and data bytes. */
  datatype CanFrame = CanFrame(canId: uint32, extended: bool, data: seq<uint8>)

  /** A channel's linear calibration; the default leaves readings unchanged. */
  datatype Calibration = Calibration(multiplier: real, offset: real)

  const DefaultCalibration := Calibration(1.0, 0.0)

  // ---------------------------------------------------------------------
  // Outgoing payloads
  // ---------------------------------------------------------------------

  /** The status request: eight zero bytes. */
  function StatusRequestPayload(): (p: seq<uint8>)
    ensures |p| == 8 && forall i :: 0 <= i < |p| ==> p[i] == 0
  {
    seq(8, _ => 0)
  }

  /** The 32-bit value of a voltage setting: deci-volts times 102, computed
      in `int` from a `uint16_t`, so it never wraps. */
  function VoltageSettingValue(deciVolts: uint16): uint32
  {
    deciVolts * 102
  }

  /** The 32-bit value of a current setting: `uint32_t(deci_amps * 1.5f)`.
      `deci_amps * 1.5` is exact in single precision for every `uint16_t`
      (at most 18 significant bits, within the 24 of a float), and the cast truncates it. */
  function CurrentSettingValue(deciAmps: uint16): uint32
  {
    (deciAmps * 3) / 2
  }

  function VoltagePayload(deciVolts: uint16): seq<uint8>
  {
    [0x01, 0x00, 0x00, 0x00] + EncodeBE32(VoltageSettingValue(deciVolts))
  }

  function CurrentPayload(deciAmps: uint16): seq<uint8>
  {
    [0x01, 0x03, 0x00, 0x00] + EncodeBE32(CurrentSettingValue(deciAmps))
  }

  function ControlPayload(command: uint8): seq<uint8>
  {
    [0x01, 0x32, 0x00, command, 0x00, 0x00, 0x00, 0x00]
  }

  /** A voltage payload is eight bytes with the fixed header 01 00 00 00;
      its value field never uses the top byte, reads back as deci-volts
      times 102, and determines the deci-volts it was built from. */
  lemma {:induction false} VoltagePayloadDecodes(deciVolts: uint16)
    ensures var p := VoltagePayload(deciVolts);
      && |p| == 8
      && p[..4] == [0x01, 0x00, 0x00, 0x00]
      && p[4] == 0
      && DecodeBE32(p[4..]) == deciVolts * 102
      && DecodeBE32(p[4..]) / 102 == deciVolts
  {
    var p := VoltagePayload(deciVolts);
    assert p[4..] == EncodeBE32(VoltageSettingValue(deciVolts));
    DecodeEncodeBE32(VoltageSettingValue(deciVolts));
  }

  /** A current payload is eight bytes with the fixed header 01 03 00 00;
      its value field never uses the top byte and reads back as
      floor(3 * deci-amps / 2), from which `(2 * value + 2) / 3` recovers
      the deci-amps. */
  lemma {:induction false} CurrentPayloadDecodes(deciAmps: uint16)
    ensures var p := CurrentPayload(deciAmps);
      && |p| == 8
      && p[..4] == [0x01, 0x03, 0x00, 0x00]
      && p[4] == 0
      && DecodeBE32(p[4..]) == (3 * deciAmps) / 2
      && (2 * DecodeBE32(p[4..]) + 2) / 3 == deciAmps
  {
    var p := CurrentPayload(deciAmps);
    assert p[4..] == EncodeBE32(CurrentSettingValue(deciAmps));
    DecodeEncodeBE32(CurrentSettingValue(deciAmps));
    var v := (3 * deciAmps) / 2;
    if deciAmps % 2 == 0 {
      assert v == 3 * (deciAmps / 2);
    } else {
      assert v == 3 * (deciAmps / 2) + 1;
    }
  }

  /** Distinct setpoints give distinct payloads, for voltage and for current. */
  lemma {:induction false} SettingPayloadsInjective(d1: uint16, d2: uint16)
    ensures VoltagePayload(d1) == VoltagePayload(d2) ==> d1 == d2
    ensures CurrentPayload(d1) == CurrentPayload(d2) ==> d1 == d2
  {
    VoltagePayloadDecodes(d1);
    VoltagePayloadDecodes(d2);
    CurrentPayloadDecodes(d1);
    CurrentPayloadDecodes(d2);
  }

  // ---------------------------------------------------------------------
  // float -> uint16_t
  // ---------------------------------------------------------------------

  /** Truncation toward zero, as a float-to-integer cast performs it. */
  function Trunc(x: real): (n: int)
    ensures 0.0 <= x ==> n as real <= x < n as real + 1.0
    ensures x < 0.0 ==> n as real - 1.0 < x <= n as real
  {
    if x >= 0.0 then x.Floor else -((-x).Floor)
  }

  /** `static_cast<uint16_t>(x * 10)`: tenths of `x`, truncated toward zero.
      Whenever the truncated tenths fit in `uint16_t` (tenths in (-1, 65536))
      that is the result; otherwise the model wraps modulo 2^16. */
  function DeciUnits(x: real): (d: uint16)
    ensures -1.0 < x * 10.0 < 65536.0 ==> d == Trunc(x * 10.0)
    ensures 0.0 <= x * 10.0 < 65536.0 ==> d as real <= x * 10.0 < d as real + 1.0
    ensures -1.0 < x * 10.0 < 0.0 ==> d == 0
  {
    Trunc(x * 10.0) % 0x1_0000
  }

  // ---------------------------------------------------------------------
  // Incoming status responses
  // ---------------------------------------------------------------------

  /** The parameter IDs whose responses are stored in a channel. Output
      power is written both by ID 0x70 and by ID 0x73. */
  function ParamIds(t: SensorType): set<uint8>
  {
    match t
    case InputVoltage => {0x78}
    case InputCurrent => {0x72}
    case InputFrequency => {0x71}
    case OutputVoltage => {0x75}
    case OutputCurrent => {0x81}
    case OutputPower => {0x70, 0x73}
    case Temperature => {0x7F}
  }

  /** The channel selected by the parameter-ID byte `data[1]` of a status
      response, or `None` for an ID the switch does not handle. */
  function SlotFor(paramId: uint8): (r: Option<SensorType>)
    ensures forall t :: r == Some(t) <==> paramId in ParamIds(t)
    ensures r.None? <==> forall t :: paramId !in ParamIds(t)
  {
    if paramId == 0x70 then Some(OutputPower)
    else if paramId == 0x71 then Some(InputFrequency)
    else if paramId == 0x72 then Some(InputCurrent)
    else if paramId == 0x73 then Some(OutputPower)
    else if paramId == 0x75 then Some(OutputVoltage)
    else if paramId == 0x78 then Some(InputVoltage)
    else if paramId == 0x7F then Some(Temperature)
    else if paramId == 0x81 then Some(OutputCurrent)
    else None
  }

  /** The unsigned big-endian value field, bytes 4 to 7 of a response. */
  function RawValue(data: seq<uint8>): uint32
    requires |data| >= 8
  {
    DecodeBE32(data[4..8])
  }

  /** `parse_value_`: the value field divided by `divisor`, then calibrated
      with the channel's multiplier and offset. A zero divisor yields 0; an
      enum value outside the channel range yields the uncalibrated value. */
  function ParseValue(data: seq<uint8>, divisor: real, sensorType: int, calibrations: seq<Calibration>): real
    requires |data| >= 8
    requires |calibrations| == SensorTypeCount
  {
    if divisor == 0.0 then 0.0
    else
      var value := RawValue(data) as real / divisor;
      if sensorType < 0 || sensorType >= SensorTypeCount then value
      else value * calibrations[sensorType].multiplier + calibrations[sensorType].offset
  }

  /** With the default calibration a response's reading is its value field
      divided by 1024, so it lies in [0, 2^22). */
  lemma ParseValueDefault(data: seq<uint8>, sensorType: int, calibrations: seq<Calibration>)
    requires |data| >= 8 && |calibrations| == SensorTypeCount
    requires 0 <= sensorType < SensorTypeCount ==> calibrations[sensorType] == DefaultCalibration
    ensures ParseValue(data, 1024.0, sensorType, calibrations) == RawValue(data) as real / 1024.0
    ensures 0.0 <= ParseValue(data, 1024.0, sensorType, calibrations) < 4194304.0
  {
  }

  /** A calibrated reading is the default-calibrated reading of the same
      frame, times the channel's multiplier, plus its offset: it is computed
      afresh from the frame and depends on no other channel's calibration. */
  lemma ParseValueAffine(data: seq<uint8>, t: SensorType, calibrations: seq<Calibration>)
    requires |data| >= 8 && |calibrations| == SensorTypeCount
    ensures var c := calibrations[Ordinal(t)];
      ParseValue(data, 1024.0, Ordinal(t), calibrations)
      == ParseValue(data, 1024.0, Ordinal(t), seq(SensorTypeCount, _ => DefaultCalibration)) * c.multiplier + c.offset
  {
  }

  /** A reading depends on the value field only: frames that agree on bytes
      4 to 7 give the same reading, whatever their other bytes. */
  lemma ParseValueReadsValueField(data1: seq<uint8>, data2: seq<uint8>, divisor: real, sensorType: int, calibrations: seq<Calibration>)
    requires |data1| >= 8 && |data2| >= 8 && |calibrations| == SensorTypeCount
    requires data1[4..8] == data2[4..8]
    ensures ParseValue(data1, divisor, sensorType, calibrations) == ParseValue(data2, divisor, sensorType, calibrations)
  {
  }

  /** An input-current calibration of multiplier 0.1 and offset -5 turns a
      response whose value field encodes 120 (that is, 120 * 1024 = 0x0001E000)
      into the reading 7.0. */
  lemma InputCurrentCalibrationExample(calibrations: seq<Calibration>)
    requires |calibrations| == SensorTypeCount
    requires calibrations[Ordinal(InputCurrent)] == Calibration(0.1, -5.0)
    ensures SlotFor(0x72) == Some(InputCurrent)
    ensures ParseValue([0x00, 0x72, 0x00, 0x00, 0x00, 0x01, 0xE0, 0x00], 1024.0, Ordinal(InputCurrent), calibrations) == 7.0
  {
  }
}
