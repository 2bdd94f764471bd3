/** Virtual-pin range providers: each owns a half-open interval of virtual
    pin numbers, reads raw ADC codes for them from its hardware path and maps
    a raw code to milliamps through two calibration codes. */
module VirtualPins {
  import opened SensorTypes

  /** Conversion of a floating-point value to `int` in C++: truncation toward
      zero. */
  function Trunc(x: real): (r: int)
    ensures 0.0 <= x ==> r as real <= x < r as real + 1.0
    ensures x < 0.0 ==> r as real - 1.0 < x <= r as real
  {
    if x >= 0.0 then x.Floor else -((-x).Floor)
  }

  lemma TruncMonotone(x: real, y: real)
    requires x <= y
    ensures Trunc(x) <= Trunc(y)
  {
  }

  /** The exact straight line through (code at 4 mA, 4 mA) and
      (code at 20 mA, 20 mA), evaluated at `adcValue`. */
  function LinearmA(adcValue4mA: int, adcValue20mA: int, adcValue: int): (mA: real)
    requires adcValue20mA != adcValue4mA
    ensures adcValue == adcValue4mA ==> mA == 4.0
    ensures adcValue == adcValue20mA ==> mA == 20.0
  {
    var delta := (adcValue20mA - adcValue4mA) as real;
    assert delta * 16.0 / delta == 16.0;
    (adcValue - adcValue4mA) as real * 16.0 / delta + 4.0
  }

  /** The hardware path behind a provider. */
  datatype Device =
    | Native                                    // analogRead() on the MCU's own ADC
    | ADS1015(i2cAddr: I2cAddress, wire: WireId) // an ADS1015 on an I2C bus

  /** What the hardware answers, as oracles: the native `analogRead`, the
      ADS1015 driver's `begin` and its single-ended read of one channel. */
  datatype Hardware = Hardware(
    analogRead: int -> int,
    adcBegin: (WireId, I2cAddress) -> bool,
    getSingleEnded: (WireId, I2cAddress, int) -> int)

  /** One provider: the fields of the common base class plus the variant. */
  datatype VirtualPin = VirtualPin(
    virtualPinStart: int,
    numVirtualPins: int,
    adcValue4mA: int,
    adcValue20mA: int,
    device: Device)
  {
    /** The two calibration codes differ, so the conversion is defined. */
    predicate Calibrated()
    {
      adcValue20mA != adcValue4mA
    }

    predicate IsInRange(virtualPin: int)
    {
      virtualPin >= virtualPinStart && virtualPin < virtualPinStart + numVirtualPins
    }

    /** The virtual pins this provider claims. */
    function OwnedPins(): set<int>
    {
      Interval(virtualPinStart, numVirtualPins)
    }

    /** Raw code to mA. The C++ member is declared to return `int`, so the
        value of the line is truncated toward zero. */
    function ConvertmA(adcValue: int): (mA: int)
      requires Calibrated()
      ensures adcValue == adcValue4mA ==> mA == 4
      ensures adcValue == adcValue20mA ==> mA == 20
      ensures var exact := LinearmA(adcValue4mA, adcValue20mA, adcValue);
              && (0.0 <= exact ==> mA as real <= exact < mA as real + 1.0)
              && (exact < 0.0 ==> mA as real - 1.0 < exact <= mA as real)
    {
      Trunc(LinearmA(adcValue4mA, adcValue20mA, adcValue))
    }

    /** The ADS1015 channel that backs `virtualPin`. */
    function Channel(virtualPin: int): int
    {
      virtualPin - virtualPinStart
    }

    function ReadPin(hw: Hardware, virtualPin: int): int
    {
      match device
      case Native => hw.analogRead(virtualPin)
      case ADS1015(addr, wire) => hw.getSingleEnded(wire, addr, Channel(virtualPin))
    }

    /** One-time bring-up: nothing to do natively; for the ADS1015 the
        driver's `begin` decides (the gain it then sets is not modelled). */
    function Init(hw: Hardware): bool
    {
      match device
      case Native => true
      case ADS1015(addr, wire) => hw.adcBegin(wire, addr)
    }
  }

  /** `new SensorVirtualPinNative()`: pins 0..99, codes 491 and 2469. */
  function NewNative(): VirtualPin
  {
    VirtualPin(0, 100, 491, 2469, Native)
  }

  /** `new SensorVirtualPinADS1015(virtualPinStart, i2cAddr, wire)`. */
  function NewADS1015(virtualPinStart: int, i2cAddr: I2cAddress, wire: WireId): VirtualPin
  {
    VirtualPin(virtualPinStart, 4, 199, 1004, ADS1015(i2cAddr, wire))
  }

  /** The integers `start`, `start + 1`, ..., `start + count - 1`. */
  function Interval(start: int, count: int): set<int>
    decreases count
  {
    if count <= 0 then {} else Interval(start, count - 1) + {start + count - 1}
  }

  lemma {:induction false} IntervalMembers(start: int, count: int, pin: int)
    ensures pin in Interval(start, count) <==> start <= pin < start + count
    decreases count
  {
    if count > 0 {
      IntervalMembers(start, count - 1, pin);
    }
  }

  lemma {:induction false} IntervalSize(start: int, count: int)
    ensures |Interval(start, count)| == if count <= 0 then 0 else count
    decreases count
  {
    if count > 0 {
      IntervalSize(start, count - 1);
      IntervalMembers(start, count - 1, start + count - 1);
    }
  }

  /** `IsInRange` is membership in the interval of owned pins, and a provider
      owns exactly as many pins as its (non-negative) count says. */
  lemma OwnedPinsCount(p: VirtualPin, pin: int)
    ensures p.IsInRange(pin) <==> pin in p.OwnedPins()
    ensures |p.OwnedPins()| == if p.numVirtualPins <= 0 then 0 else p.numVirtualPins
  {
    IntervalMembers(p.virtualPinStart, p.numVirtualPins, pin);
    IntervalSize(p.virtualPinStart, p.numVirtualPins);
  }

  /** The conversion never decreases as the raw code grows when the 20 mA
      code is the larger one ... */
  lemma ConvertMonotone(p: VirtualPin, a: int, b: int)
    requires p.adcValue20mA > p.adcValue4mA
    requires a <= b
    ensures p.ConvertmA(a) <= p.ConvertmA(b)
  {
    LinearMonotone(p.adcValue4mA, p.adcValue20mA, a, b);
    TruncMonotone(LinearmA(p.adcValue4mA, p.adcValue20mA, a), LinearmA(p.adcValue4mA, p.adcValue20mA, b));
  }

  /** ... and never increases when it is the smaller one. */
  lemma ConvertAntitone(p: VirtualPin, a: int, b: int)
    requires p.adcValue20mA < p.adcValue4mA
    requires a <= b
    ensures p.ConvertmA(b) <= p.ConvertmA(a)
  {
    LinearAntitone(p.adcValue4mA, p.adcValue20mA, a, b);
    TruncMonotone(LinearmA(p.adcValue4mA, p.adcValue20mA, b), LinearmA(p.adcValue4mA, p.adcValue20mA, a));
  }

  lemma LinearMonotone(c4: int, c20: int, a: int, b: int)
    requires c20 > c4
    requires a <= b
    ensures LinearmA(c4, c20, a) <= LinearmA(c4, c20, b)
  {
  }

  lemma LinearAntitone(c4: int, c20: int, a: int, b: int)
    requires c20 < c4
    requires a <= b
    ensures LinearmA(c4, c20, b) <= LinearmA(c4, c20, a)
  {
    var d := (c20 - c4) as real;
    var x := (a - c4) as real * 16.0;
    var y := (b - c4) as real * 16.0;
    assert x <= y;
    assert x / d - y / d == (y - x) / -d;
  }

  /** The native provider claims pins 0..99, is calibrated, needs no
      bring-up and reads a pin with `analogRead` on that same pin. */
  lemma NativeProvider(hw: Hardware, pin: int)
    ensures NewNative().Calibrated()
    ensures NewNative().Init(hw)
    ensures NewNative().ReadPin(hw, pin) == hw.analogRead(pin)
    ensures NewNative().IsInRange(pin) <==> 0 <= pin < 100
    ensures |NewNative().OwnedPins()| == 100
  {
    OwnedPinsCount(NewNative(), pin);
  }

  /** An ADS1015 provider claims exactly the four pins from its start, uses
      the codes 199 and 1004, initialises exactly when the driver's `begin`
      finds the chip, and reads every pin it claims from the driver's
      channel `pin - virtualPinStart`, which lies in 0..3. */
  lemma ADS1015Provider(virtualPinStart: int, i2cAddr: I2cAddress, wire: WireId, hw: Hardware, pin: int)
    ensures var p := NewADS1015(virtualPinStart, i2cAddr, wire);
            && p.Calibrated()
            && p.adcValue4mA == 199 && p.adcValue20mA == 1004
            && (p.IsInRange(pin) <==> virtualPinStart <= pin < virtualPinStart + 4)
            && (p.IsInRange(pin) ==> 0 <= p.Channel(pin) < 4)
            && p.Init(hw) == hw.adcBegin(wire, i2cAddr)
            && p.ReadPin(hw, pin) == hw.getSingleEnded(wire, i2cAddr, pin - virtualPinStart)
            && |p.OwnedPins()| == 4
  {
    OwnedPinsCount(NewADS1015(virtualPinStart, i2cAddr, wire), pin);
  }
}
