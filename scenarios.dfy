/** Concrete uses of the model: the native calibration points, and the setup
    and reads of the ADS1015 example program. */
module Scenarios {
  import opened SensorTypes
  import opened VirtualPins
  import opened Sensor

  /** The native ADC's calibration: 491 reads as 4 mA, 2469 as 20 mA, the
      midpoint 1480 as 12 mA, and 600 (4.88 mA on the line) as 4 mA once
      truncated to whole milliamps. */
  lemma NativeConversionPoints()
    ensures NewNative().ConvertmA(491) == 4
    ensures NewNative().ConvertmA(2469) == 20
    ensures NewNative().ConvertmA(1480) == 12
    ensures NewNative().ConvertmA(600) == 4
  {
  }

  /** The configuration of the ADS1015 example: sensor 1 on virtual pin 100
      reports mA, sensor 2 on pin 101 reports 0..100 with 0 at 0 mA. */
  function ExampleConfig(): seq<SensorConfig>
  {
    [ DefaultConfig(100, "sen1"),
      DefaultConfig(101, "sen2").(valueLow := 0.0, value20mA := 100.0, valueLowIs4mA := false) ]
  }

  /** The setup of the ADS1015 example (one chip from virtual pin 100 and the
      configuration above), then a read of both sensors with channel 0 at the
      chip's 4 mA code and channel 1 at its 20 mA code. */
  method ADS1015Example(hw: Hardware, i2cAddr: I2cAddress, wire: WireId)
    returns (ok: bool, sen1: SensorValue, sen2: SensorValue, json: seq<(string, real)>)
    requires hw.getSingleEnded(wire, i2cAddr, 0) == 199
    requires hw.getSingleEnded(wire, i2cAddr, 1) == 1004
    ensures ok == hw.adcBegin(wire, i2cAddr)
    ensures sen1 == SensorValue(199, 4.0, 4.0)
    ensures sen2 == SensorValue(1004, 20.0, 100.0)
    ensures json == [("sen1", 4.0), ("sen2", 100.0)]
  {
    var sensor := new Sensor4_20mA();
    sensor := sensor.WithADS1015(100, i2cAddr, wire);
    sensor := sensor.WithConfig(Some(ExampleConfig()));
    ghost var attempted;
    ok, attempted := sensor.Init(hw);
    sen1 := sensor.ReadPinValue(hw, 100);
    sen2 := sensor.ReadPinValue(hw, 101);
    json := sensor.WriteJSON(hw);
  }
}
