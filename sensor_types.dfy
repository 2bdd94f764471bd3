/** Plain records shared by the providers and the registry: the per-sensor
    configuration supplied by the application and the value that one read
    produces. */
module SensorTypes {

  datatype Option<+T> = None | Some(value: T)

  /** An I2C bus address (a uint8_t in the library). */
  newtype I2cAddress = x: int | 0 <= x < 0x100

  /** Identifies the I2C interface a chip hangs off (Wire, Wire1, Wire3, ...). */
  type WireId = nat

  /** Configuration of one sensor. The `float` fields are idealised as reals.
      `valueLowIs4mA` tells whether `valueLow` is the reading at 4 mA (true)
      or at 0 mA (false). */
  datatype SensorConfig = SensorConfig(
    virtualPin: int,
    name: string,
    valueLow: real,
    value20mA: real,
    valueLowIs4mA: bool,
    offset: real,
    multiplier: real)

  /** The record an application writes as `{ pin, name }`: every other field
      keeps its declared default (4, 20, low is the 4 mA value, no offset,
      multiplier 1). */
  function DefaultConfig(virtualPin: int, name: string): SensorConfig
  {
    SensorConfig(virtualPin, name, 4.0, 20.0, true, 0.0, 1.0)
  }

  /** What one read yields: the raw ADC code, the code converted to mA and
      the configured engineering value (the mA value when nothing scales it). */
  datatype SensorValue = SensorValue(adcValue: int, mA: real, value: real)

  /** The result a read starts from, and returns for a pin nobody claims. */
  const ZeroValue := SensorValue(0, 0.0, 0.0)
}
