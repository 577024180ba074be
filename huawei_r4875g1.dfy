/** The `HuaweiR4875G1` driver object and its two kinds of polled sensors.
    The clock (`millis()`) is a parameter `now` of the operations that read
    it; the CAN bus is an outside object that records the frames handed to it. */
module Driver {

  import opened Wrappers
  import opened Wire
  import opened SensorTypes
  import opened Protocol

  /** Stand-in for the host framework's CAN bus: `SendData` records the
      frame it is given, in order. */
  class Canbus {
    var sent: seq<CanFrame>

    constructor ()
      ensures sent == []
    {
      sent := [];
    }

    method SendData(frame: CanFrame)
      modifies this
      ensures sent == old(sent) + [frame]
    {
      sent := sent + [frame];
    }
  }

  /** A snapshot of the driver's scalar fields, used to say which of them an
      operation changes. */
  datatype Fields = Fields(
    canbus: Canbus?,
    updateInterval: uint32,
    lastUpdate: uint32,
    enabled: bool,
    minVoltage: real,
    maxVoltage: real,
    minCurrent: real,
    maxCurrent: real,
    currentVoltage: real,
    currentCurrent: real,
    lastFrameTime: uint32)

  class HuaweiR4875G1 {
    var canbus: Canbus?
    var updateInterval: uint32
    var lastUpdate: uint32
    var enabled: bool

    /** Latest reading per channel, indexed by `Ordinal`. */
    const sensorValues: array<real>
    /** Calibration per channel, indexed by `Ordinal`. */
    const calibrations: array<Calibration>

    var minVoltage: real
    var maxVoltage: real
    var minCurrent: real
    var maxCurrent: real

    /** The last setpoints accepted by `SetVoltage` and `SetCurrent`. */
    var currentVoltage: real
    var currentCurrent: real

    var lastFrameTime: uint32
    /** Nothing in the driver assigns the offline timeout after initialisation. */
    const offlineTimeout: uint32 := 5000

    /** Both arrays have one slot per channel, and the channels without a
        calibration setter (input frequency, output power, temperature)
        keep the default calibration. */
    ghost predicate Valid()
      reads calibrations
    {
      && sensorValues.Length == SensorTypeCount
      && calibrations.Length == SensorTypeCount
      && calibrations[Ordinal(InputFrequency)] == DefaultCalibration
      && calibrations[Ordinal(OutputPower)] == DefaultCalibration
      && calibrations[Ordinal(Temperature)] == DefaultCalibration
    }

    ghost function State(): Fields
      reads this
    {
      Fields(canbus, updateInterval, lastUpdate, enabled,
             minVoltage, maxVoltage, minCurrent, maxCurrent,
             currentVoltage, currentCurrent, lastFrameTime)
    }

    /** Between the two states the bus is the same object and it has been
        handed exactly `frames`, in order. Without a bus nothing is sent. */
    twostate predicate SentExactly(frames: seq<CanFrame>)
      reads this, canbus
    {
      && canbus == old(canbus)
      && (canbus != null ==> canbus.sent == old(canbus.sent) + frames)
    }

    /** The member initialisers of the class. */
    constructor ()
      ensures Valid() && fresh(sensorValues) && fresh(calibrations)
      ensures State() == Fields(null, 1000, 0, false, 41.5, 58.5, 0.0, 90.5, 53.5, 50.0, 0)
      ensures offlineTimeout == 5000
      ensures sensorValues[..] == seq(SensorTypeCount, _ => 0.0)
      ensures calibrations[..] == seq(SensorTypeCount, _ => DefaultCalibration)
    {
      canbus := null;
      updateInterval := 1000;
      lastUpdate := 0;
      enabled := false;
      sensorValues := new real[SensorTypeCount](_ => 0.0);
      calibrations := new Calibration[SensorTypeCount](_ => DefaultCalibration);
      minVoltage := 41.5;
      maxVoltage := 58.5;
      minCurrent := 0.0;
      maxCurrent := 90.5;
      currentVoltage := 53.5;
      currentCurrent := 50.0;
      lastFrameTime := 0;
      new;
      assert sensorValues[..] == seq(SensorTypeCount, _ => 0.0);
      assert calibrations[..] == seq(SensorTypeCount, _ => DefaultCalibration);
    }

    // -------------------------------------------------------------------
    // Configuration setters
    // -------------------------------------------------------------------

    method SetCanbus(bus: Canbus?)
      modifies this
      ensures State() == old(State()).(canbus := bus)
    {
      canbus := bus;
    }

    method SetUpdateInterval(interval: uint32)
      modifies this
      ensures State() == old(State()).(updateInterval := interval)
    {
      updateInterval := interval;
    }

    method SetInputVoltageCalibration(mult: real, offset: real)
      requires Valid()
      modifies calibrations
      ensures Valid()
      ensures calibrations[..] == old(calibrations[..])[Ordinal(InputVoltage) := Calibration(mult, offset)]
    {
      calibrations[Ordinal(InputVoltage)] := Calibration(mult, offset);
    }

    method SetOutputVoltageCalibration(mult: real, offset: real)
      requires Valid()
      modifies calibrations
      ensures Valid()
      ensures calibrations[..] == old(calibrations[..])[Ordinal(OutputVoltage) := Calibration(mult, offset)]
    {
      calibrations[Ordinal(OutputVoltage)] := Calibration(mult, offset);
    }

    method SetInputCurrentCalibration(mult: real, offset: real)
      requires Valid()
      modifies calibrations
      ensures Valid()
      ensures calibrations[..] == old(calibrations[..])[Ordinal(InputCurrent) := Calibration(mult, offset)]
    {
      calibrations[Ordinal(InputCurrent)] := Calibration(mult, offset);
    }

    method SetOutputCurrentCalibration(mult: real, offset: real)
      requires Valid()
      modifies calibrations
      ensures Valid()
      ensures calibrations[..] == old(calibrations[..])[Ordinal(OutputCurrent) := Calibration(mult, offset)]
    {
      calibrations[Ordinal(OutputCurrent)] := Calibration(mult, offset);
    }

    method SetVoltageLimits(min: real, max: real)
      modifies this
      ensures State() == old(State()).(minVoltage := min, maxVoltage := max)
    {
      minVoltage := min;
      maxVoltage := max;
    }

    method SetCurrentLimits(min: real, max: real)
      modifies this
      ensures State() == old(State()).(minCurrent := min, maxCurrent := max)
    {
      minCurrent := min;
      maxCurrent := max;
    }

    // -------------------------------------------------------------------
    // Sending
    // -------------------------------------------------------------------

    /** Every frame the driver sends has an extended identifier; without a
        bus nothing is sent. */
    method SendCommand(canId: uint32, data: seq<uint8>)
      modifies canbus
      ensures SentExactly([CanFrame(canId, true, data)])
    {
      if canbus == null {
        return;
      }
      canbus.SendData(CanFrame(canId, true, data));
    }

    method RequestStatus()
      modifies canbus
      ensures SentExactly([CanFrame(StatusRequestId, true, StatusRequestPayload())])
    {
      SendCommand(StatusRequestId, StatusRequestPayload());
    }

    method SendVoltageSetting(voltage: real)
      modifies canbus
      ensures SentExactly([CanFrame(SetCommandId, true, VoltagePayload(DeciUnits(voltage)))])
    {
      var deciVolts := DeciUnits(voltage);
      SendCommand(SetCommandId, VoltagePayload(deciVolts));
    }

    method SendCurrentSetting(current: real)
      modifies canbus
      ensures SentExactly([CanFrame(SetCommandId, true, CurrentPayload(DeciUnits(current)))])
    {
      var deciAmps := DeciUnits(current);
      SendCommand(SetCommandId, CurrentPayload(deciAmps));
    }

    method SendControlCommand(command: uint8)
      modifies canbus
      ensures SentExactly([CanFrame(SetCommandId, true, ControlPayload(command))])
    {
      SendCommand(SetCommandId, ControlPayload(command));
    }

    // -------------------------------------------------------------------
    // Lifecycle and polling
    // -------------------------------------------------------------------

    /** The part of `setup()` that this model keeps: with a bus, one initial
        status request; without one, nothing. */
    method Setup()
      modifies canbus
      ensures SentExactly([CanFrame(StatusRequestId, true, StatusRequestPayload())])
    {
      if canbus == null {
        return;
      }
      RequestStatus();
    }

    /** One pass of the main loop at time `now`: a status request once at
        least `updateInterval` ms (modulo 2^32) have passed since the last
        one. A missed tick is not made up later. */
    method Loop(now: uint32)
      modifies this, canbus
      ensures if Sub32(now, old(lastUpdate)) >= old(updateInterval) then
          && State() == old(State()).(lastUpdate := now)
          && SentExactly([CanFrame(StatusRequestId, true, StatusRequestPayload())])
        else
          && State() == old(State())
          && SentExactly([])
    {
      if Sub32(now, lastUpdate) >= updateInterval {
        lastUpdate := now;
        RequestStatus();
      }
    }

    // -------------------------------------------------------------------
    // Receiving
    // -------------------------------------------------------------------

    /** The slot selected by `data[1]` now holds the frame's calibrated
        reading, and no other slot changed; an unhandled ID changes nothing. */
    twostate predicate StoredReading(data: seq<uint8>)
      requires |data| >= 8 && Valid()
      reads calibrations, sensorValues
    {
      match SlotFor(data[1])
      case Some(t) =>
        sensorValues[..] == old(sensorValues[..])[Ordinal(t) := ParseValue(data, 1024.0, Ordinal(t), calibrations[..])]
      case None =>
        sensorValues[..] == old(sensorValues[..])
    }

    method OnCanMessage(frame: CanFrame, now: uint32)
      requires Valid()
      modifies this, sensorValues
      ensures if frame.canId == StatusResponseId && |frame.data| >= 8 then
          && State() == old(State()).(lastFrameTime := now)
          && StoredReading(frame.data)
          && IsOnline(now)
        else
          && State() == old(State())
          && sensorValues[..] == old(sensorValues[..])
    {
      if frame.canId == StatusResponseId && |frame.data| >= 8 {
        lastFrameTime := now;
        ProcessStatusFrame(frame);
      }
    }

    method ProcessStatusFrame(frame: CanFrame)
      requires Valid() && |frame.data| >= 8
      modifies sensorValues
      ensures StoredReading(frame.data)
    {
      var paramId := frame.data[1];
      match SlotFor(paramId)
      case Some(t) =>
        var value := ParseValue(frame.data, 1024.0, Ordinal(t), calibrations[..]);
        sensorValues[Ordinal(t)] := value;
      case None =>
    }

    /** Channels without a calibration setter report the value field divided
        by 1024, whatever the other channels' calibrations are. */
    lemma UncalibratedChannels(data: seq<uint8>, t: SensorType)
      requires Valid() && |data| >= 8
      requires t == InputFrequency || t == OutputPower || t == Temperature
      ensures ParseValue(data, 1024.0, Ordinal(t), calibrations[..]) == RawValue(data) as real / 1024.0
    {
      ParseValueDefault(data, Ordinal(t), calibrations[..]);
    }

    // -------------------------------------------------------------------
    // Control
    // -------------------------------------------------------------------

    /** A voltage outside [minVoltage, maxVoltage] is refused: no frame, no
        change. One inside is sent as a setting and recorded. */
    method SetVoltage(voltage: real)
      modifies this, canbus
      ensures if minVoltage <= voltage <= maxVoltage then
          && State() == old(State()).(currentVoltage := voltage)
          && SentExactly([CanFrame(SetCommandId, true, VoltagePayload(DeciUnits(voltage)))])
        else
          && State() == old(State())
          && SentExactly([])
    {
      if voltage < minVoltage || voltage > maxVoltage {
        return;
      }
      SendVoltageSetting(voltage);
      currentVoltage := voltage;
    }

    /** A current outside [minCurrent, maxCurrent] is refused: no frame, no
        change. One inside is sent as a setting and recorded. */
    method SetCurrent(current: real)
      modifies this, canbus
      ensures if minCurrent <= current <= maxCurrent then
          && State() == old(State()).(currentCurrent := current)
          && SentExactly([CanFrame(SetCommandId, true, CurrentPayload(DeciUnits(current)))])
        else
          && State() == old(State())
          && SentExactly([])
    {
      if current < minCurrent || current > maxCurrent {
        return;
      }
      SendCurrentSetting(current);
      currentCurrent := current;
    }

    method Enable()
      modifies this, canbus
      ensures State() == old(State()).(enabled := true)
      ensures SentExactly([CanFrame(SetCommandId, true, ControlPayload(EnableCommand))])
    {
      SendControlCommand(EnableCommand);
      enabled := true;
    }

    method Disable()
      modifies this, canbus
      ensures State() == old(State()).(enabled := false)
      ensures SentExactly([CanFrame(SetCommandId, true, ControlPayload(DisableCommand))])
    {
      SendControlCommand(DisableCommand);
      enabled := false;
    }

    // -------------------------------------------------------------------
    // Queries
    // -------------------------------------------------------------------

    /** The reading stored for an enum value, 0 for one outside the range. */
    function GetSensorValue(sensorType: int): (r: real)
      requires Valid()
      reads calibrations, sensorValues
      ensures match FromOrdinal(sensorType)
        case Some(t) => r == sensorValues[Ordinal(t)]
        case None => r == 0.0
    {
      if 0 <= sensorType < SensorTypeCount then sensorValues[sensorType] else 0.0
    }

    function IsEnabled(): bool
      reads this
    {
      enabled
    }

    /** Online means `now` lies fewer than `offlineTimeout` ms after
        `lastFrameTime`, counting across the 2^32 wrap of the millisecond
        clock. `lastFrameTime` is 0 until the first accepted frame, so the
        unit reads online for the first 5000 ms after boot. */
    function IsOnline(now: uint32): (b: bool)
      reads this
      ensures b <==> exists d :: 0 <= d < offlineTimeout && Add32(lastFrameTime, d) == now
    {
      WithinWindow(now, lastFrameTime, offlineTimeout);
      Sub32(now, lastFrameTime) < offlineTimeout
    }

    /** While no frame has been accepted `lastFrameTime` is still 0, so the
        unit reads online exactly for the first `offlineTimeout` ms of the
        clock, with nothing received. */
    lemma OnlineBeforeFirstFrame(now: uint32)
      requires lastFrameTime == 0
      ensures IsOnline(now) <==> now < offlineTimeout
    {
      assert Sub32(now, 0) == now;
    }
  }

  /** `loop` skips the poll exactly when `now` lies less than `updateInterval`
      ms after `lastUpdate` (modulo 2^32). `lastUpdate` is 0 until the first
      poll made by the loop; the request sent by `setup` does not set it.
      With an interval of 0 the window is empty, so the loop polls on every
      pass. */
  lemma LoopPollsWhen(now: uint32, lastUpdate: uint32, updateInterval: uint32)
    ensures Sub32(now, lastUpdate) >= updateInterval
      <==> !exists d :: 0 <= d < updateInterval && Add32(lastUpdate, d) == now
  {
    WithinWindow(now, lastUpdate, updateInterval);
  }

  /** A numeric sensor publishes its channel's stored reading. */
  class HuaweiSensor {
    const parent: HuaweiR4875G1
    const sensorType: SensorType

    constructor (parent: HuaweiR4875G1, sensorType: SensorType)
      ensures this.parent == parent && this.sensorType == sensorType
    {
      this.parent := parent;
      this.sensorType := sensorType;
    }

    /** The state published on one update. */
    method Update() returns (published: real)
      requires parent.Valid()
      ensures published == parent.sensorValues[Ordinal(sensorType)]
    {
      published := parent.GetSensorValue(Ordinal(sensorType));
    }
  }

  /** The status sensor publishes "enabled and online". */
  class HuaweiBinarySensor {
    const parent: HuaweiR4875G1

    constructor (parent: HuaweiR4875G1)
      ensures this.parent == parent
    {
      this.parent := parent;
    }

    /** The state published on one update at time `now`: false whenever the
        unit is disabled, and otherwise true exactly when `now` lies fewer
        than `offlineTimeout` ms after `lastFrameTime` (0 until the first
        accepted frame). */
    method Update(now: uint32) returns (published: bool)
      ensures !parent.enabled ==> !published
      ensures parent.enabled ==> (published <==> Sub32(now, parent.lastFrameTime) < parent.offlineTimeout)
    {
      published := parent.IsEnabled() && parent.IsOnline(now);
    }
  }

  /** Under the default voltage limits every accepted setpoint is between
      41.5 V and 58.5 V, so its deci-volts are 415..585 and its payload value
      at most 59670: no cast wraps. */
  lemma DefaultVoltageLimitsEncodeExactly(voltage: real)
    requires 41.5 <= voltage <= 58.5
    ensures 415 <= DeciUnits(voltage) <= 585
    ensures VoltageSettingValue(DeciUnits(voltage)) <= 59670
  {
  }

  /** Under the default current limits every accepted setpoint is between
      0 A and 90.5 A, so its deci-amps are 0..905 and its payload value at
      most 1357. */
  lemma DefaultCurrentLimitsEncodeExactly(current: real)
    requires 0.0 <= current <= 90.5
    ensures 0 <= DeciUnits(current) <= 905
    ensures CurrentSettingValue(DeciUnits(current)) <= 1357
  {
  }

  /** A client run on a fresh driver with the default configuration:
      polling and setpoints. */
  method PollingAndSetpointScenario()
  {
    var bus := new Canbus();
    var psu := new HuaweiR4875G1();
    psu.SetCanbus(bus);

    psu.Setup();
    assert bus.sent == [CanFrame(StatusRequestId, true, StatusRequestPayload())];

    // No poll before a full interval has passed, one at 1000 ms.
    psu.Loop(999);
    assert |bus.sent| == 1;
    psu.Loop(1000);
    assert |bus.sent| == 2 && psu.lastUpdate == 1000;

    // 60 V is above the default maximum: refused.
    psu.SetVoltage(60.0);
    assert |bus.sent| == 2 && psu.currentVoltage == 53.5;

    // 54 V is accepted: 540 deci-volts, value 55080 = 0x0000D728.
    assert DeciUnits(54.0) == 540;
    assert VoltagePayload(540) == [0x01, 0x00, 0x00, 0x00, 0x00, 0x00, 0xD7, 0x28];
    psu.SetVoltage(54.0);
    assert bus.sent[2] == CanFrame(SetCommandId, true, [0x01, 0x00, 0x00, 0x00, 0x00, 0x00, 0xD7, 0x28]);
    assert psu.currentVoltage == 54.0;
  }

  /** Enabling twice leaves the same state as enabling once and sends the
      same frame twice. */
  method EnableTwiceScenario()
  {
    var bus := new Canbus();
    var psu := new HuaweiR4875G1();
    psu.SetCanbus(bus);
    psu.Enable();
    var once := psu.State();
    psu.Enable();
    assert psu.State() == once && psu.enabled;
    assert bus.sent == [CanFrame(SetCommandId, true, ControlPayload(EnableCommand)), CanFrame(SetCommandId, true, ControlPayload(EnableCommand))];
  }

  /** A response for output voltage makes the unit online and stores its
      reading; a frame with another identifier is ignored. */
  method ReceiveScenario()
  {
    var psu := new HuaweiR4875G1();
    psu.Enable();
    var data: seq<uint8> := [0x01, 0x75, 0x00, 0x00, 0x00, 0x00, 0xD8, 0x00];
    assert data[4..8] == [0x00, 0x00, 0xD8, 0x00];
    assert RawValue(data) == 0xD800;
    psu.OnCanMessage(CanFrame(StatusResponseId, true, data), 2500);
    assert psu.sensorValues[Ordinal(OutputVoltage)] == 54.0;
    var status := new HuaweiBinarySensor(psu);
    var online := status.Update(2600);
    assert online;

    psu.OnCanMessage(CanFrame(0x1081407E, true, data), 2700);
    assert psu.lastFrameTime == 2500;
  }

  /** Right after boot, with no frame ever received, an enabled unit reports
      online until 5000 ms on the clock, because `lastFrameTime` starts at 0. */
  method BootScenario()
  {
    var psu := new HuaweiR4875G1();
    psu.Enable();
    var status := new HuaweiBinarySensor(psu);
    var online := status.Update(100);
    assert online;
    psu.OnlineBeforeFirstFrame(4999);
    psu.OnlineBeforeFirstFrame(5000);
    assert psu.IsOnline(4999) && !psu.IsOnline(5000);
  }
}
