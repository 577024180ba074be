/** The seven measurement channels of the rectifier, in the order of the
    C++ enum `SensorType`; the enum value is the index into the driver's
    per-channel arrays. */
module SensorTypes {

  import opened Wrappers

  datatype SensorType =
    | InputVoltage
    | InputCurrent
    | InputFrequency
    | OutputVoltage
    | OutputCurrent
    | OutputPower
    | Temperature

  /** `SENSOR_TYPE_COUNT`, the number of channels and the length of the per-channel arrays. */
  const SensorTypeCount: nat := 7

  /** The enum value of a channel. */
  function Ordinal(t: SensorType): (i: nat)
    ensures i < SensorTypeCount
  {
    match t
    case InputVoltage => 0
    case InputCurrent => 1
    case InputFrequency => 2
    case OutputVoltage => 3
    case OutputCurrent => 4
    case OutputPower => 5
    case Temperature => 6
  }

  /** The channel an integer enum value denotes; `None` for a value outside
      `[0, SENSOR_TYPE_COUNT)`. */
  function FromOrdinal(i: int): (r: Option<SensorType>)
    ensures r.Some? <==> 0 <= i < SensorTypeCount
    ensures r.Some? ==> Ordinal(r.value) == i
  {
    if i == 0 then Some(InputVoltage)
    else if i == 1 then Some(InputCurrent)
    else if i == 2 then Some(InputFrequency)
    else if i == 3 then Some(OutputVoltage)
    else if i == 4 then Some(OutputCurrent)
    else if i == 5 then Some(OutputPower)
    else if i == 6 then Some(Temperature)
    else None
  }

  /** Every channel has its own enum value, and decoding it gives the channel back. */
  lemma OrdinalRoundTrip(t: SensorType, u: SensorType)
    ensures FromOrdinal(Ordinal(t)) == Some(t)
    ensures Ordinal(t) == Ordinal(u) ==> t == u
  {
  }
}
