# Sensor_4_20mA_RK in Dafny

A model of the core of the Sensor_4_20mA_RK library. The library turns ADC readings from
4–20 mA current-loop sensors into milliamps and then into configured engineering values.
Application code names a sensor by a "virtual pin". Each pin is served by a provider: the
microcontroller's own ADC, or an ADS1015 I2C converter that owns four consecutive pins.

- `sensor_types.dfy` (module `SensorTypes`): the `SensorConfig` record and its declared
  defaults (`DefaultConfig`), the `SensorValue` record, and `ZeroValue`, the record a read
  starts from.
- `virtual_pins.dfy` (module `VirtualPins`): the providers. `VirtualPin` is a datatype.
  It holds the base class's four fields (`virtualPinStart`, `numVirtualPins`,
  `adcValue4mA`, `adcValue20mA`) and a `Device` tag (native, or ADS1015 with its address
  and bus). `NewNative` and `NewADS1015` are the two constructors with their constants.
  The members are `IsInRange`, `ConvertmA`, `Channel`, `ReadPin` and `Init`. All hardware
  goes through `Hardware`, a record of oracle functions: `analogRead`, the driver's
  `begin`, and `getSingleEnded`.
- `sensor.dfy` (module `Sensor`): the registry `Sensor4_20mA` as a class. Its fields are
  the provider list `virtualPins` and the borrowed configuration `config`, where `None`
  stands for a null pointer. Its methods are the builders (`WithNativeADC`,
  `WithADS1015`, `WithConfig`, which append or assign and return the same object) and the
  loops `Init`, `ReadPin`, `ReadPinValue` and `WriteJSON`. `Init`'s loop is proved against
  its own quantified contract. The lookup loops are proved against specification
  functions: `FirstOwner`, `FirstConfig`, `Scale`, `PinReading` or `PinValue`. The lemmas
  about those functions state the library's promises.
- `scenarios.dfy` (module `Scenarios`): the native calibration points, and the setup and
  read of the ADS1015 example program.

`convert_mA` is declared to return `int` (src/Sensor_4_20mA_RK.h:142,
src/Sensor_4_20mA_RK.cpp:114-119), so the code truncates the mA value toward zero to a
whole milliamp before storing it in the `float` field `SensorValue.mA`
(src/Sensor_4_20mA_RK.h:93). The header's own comment on `convert_mA`
(src/Sensor_4_20mA_RK.h:136-141) describes the result as an mA value typically between
4.0 and 20.0, which together with the `float` field suggests a fractional value was
intended. The model follows the code:
`ConvertmA` is `Trunc` (C++ truncation toward zero) applied to `LinearmA`, the exact line.
Its contract bounds the result within one milliamp of the line, on the side of zero. For
example, a native raw code of 600 lies at 4.88 mA on the line and reads as 4 mA.

The `float`/`double` arithmetic is modelled over `real`. For 12-bit codes this matches
the C++ conversion exactly. The line's value at an integer code is a fraction with
denominator `adcValue20mA - adcValue4mA` (below 2^12). Such a value is never within a
double's rounding error of an integer unless it is one. So the truncated results agree.

## Model

| member | source | states |
|---|---|---|
| `VirtualPins.Trunc` | src/Sensor_4_20mA_RK.cpp:114-119 | the double-to-int conversion of the return value truncates toward zero: the result is within one of the argument, on the side of zero |
| `VirtualPins.LinearmA` | src/Sensor_4_20mA_RK.cpp:114-118 | the linear map sends the 4 mA code to 4.0 and the 20 mA code to 20.0 |
| `VirtualPins.VirtualPin.ConvertmA` | src/Sensor_4_20mA_RK.cpp:114-119 | for distinct calibration codes: the 4 mA code converts to exactly 4 and the 20 mA code to exactly 20; every code converts to the exact line value truncated toward zero |
| `VirtualPins.ConvertMonotone` | src/Sensor_4_20mA_RK.cpp:114-119 | when the 20 mA code is above the 4 mA code, a larger raw code never gives a smaller mA value |
| `VirtualPins.ConvertAntitone` | src/Sensor_4_20mA_RK.cpp:114-119 | when the 20 mA code is below the 4 mA code, a larger raw code never gives a larger mA value |
| `VirtualPins.OwnedPinsCount` | src/Sensor_4_20mA_RK.cpp:110-112 | `IsInRange(pin)` holds exactly for the pins of the half-open interval from `virtualPinStart`, and there are `numVirtualPins` of them (none for a non-positive count) |
| `VirtualPins.NativeProvider` | src/Sensor_4_20mA_RK.cpp:106-131 | the native provider (constants at cpp:122-124) is calibrated (491 ≠ 2469) and claims exactly the 100 pins 0..99; its `init` is the base class's, which always succeeds (cpp:106-108); it reads a pin with `analogRead` on that same pin (cpp:129-131) |
| `VirtualPins.ADS1015Provider` | src/Sensor_4_20mA_RK.h:175-196 | an ADS1015 provider is calibrated with codes 199 and 1004, claims exactly the four pins from its start, initialises exactly when the driver's `begin` succeeds (h:179-192), and reads every pin it claims with `getSingleEnded` on channel `pin - virtualPinStart`, which lies in 0..3 |
| `Sensor.FirstOwner` | src/Sensor_4_20mA_RK.cpp:38-41 | the probe finds the lowest-index provider whose range contains the pin, and finds none exactly when no provider claims it |
| `Sensor.FirstConfig` | src/Sensor_4_20mA_RK.cpp:60-61 | the config scan finds the lowest-index record for the pin, and finds none exactly when no record names it |
| `Sensor.ReadingFromFirstOwner` | src/Sensor_4_20mA_RK.cpp:37-44 | `readPin` returns the reading of the lowest-index provider that claims the pin |
| `Sensor.UnclaimedPin` | src/Sensor_4_20mA_RK.cpp:43-51 | a pin no provider claims reads as 0, and its value record is adcValue 0, mA 0, value 0 whatever the configuration |
| `Sensor.ValueCarriesReading` | src/Sensor_4_20mA_RK.cpp:53-57 | the value record's raw code is what `readPin` returns, and its mA field is that code converted by the owning provider |
| `Sensor.LaterProvidersIgnored` | src/Sensor_4_20mA_RK.cpp:38-41 | providers after the one that claims a pin are never consulted: appending providers changes neither its reading nor its value |
| `Sensor.AppendedProvidersClaimTheRest` | src/Sensor_4_20mA_RK.cpp:53-55 | for a pin the earlier providers leave unclaimed, the appended providers answer exactly as they would alone |
| `Sensor.UnconfiguredPinReadsmA` | src/Sensor_4_20mA_RK.cpp:57-59 | with no config, or no record for the pin, a claimed pin has a first owner, and its value equals its mA, which is that first owner's conversion of its raw code |
| `Sensor.FirstConfigApplied` | src/Sensor_4_20mA_RK.cpp:60-76 | the value is the first matching record's scaling of the mA reading |
| `Sensor.LaterConfigsIgnored` | src/Sensor_4_20mA_RK.cpp:60-76 | records after the first one for a pin, duplicates included, do not change that pin's value |
| `Sensor.ScaleLowAt4mA` | src/Sensor_4_20mA_RK.cpp:62-74 | with the low value at 4 mA, 4 mA gives `(low + offset) * multiplier` and 20 mA gives `(high + offset) * multiplier` |
| `Sensor.ScaleLowAt0mA` | src/Sensor_4_20mA_RK.cpp:66-74 | with the low value at 0 mA, the low value is not added back: 0 mA gives `offset * multiplier` and 20 mA gives `(high - low + offset) * multiplier` |
| `Sensor.DefaultConfigIsIdentity` | src/Sensor_4_20mA_RK.h:50-81 | a record that keeps the declared defaults leaves the mA value unchanged |
| `Sensor.ScaleAffine` | src/Sensor_4_20mA_RK.cpp:62-74 | scaling is affine in mA, with gain `(high - low) * multiplier / 16` or `/ 20` by the polarity flag |
| `Sensor.ScaleMonotone` | src/Sensor_4_20mA_RK.cpp:62-74 | for `low <= high` and a non-negative multiplier, a larger current never gives a smaller value |
| `Sensor.Sensor4_20mA.constructor` | src/Sensor_4_20mA_RK.h:316-318 | a fresh registry has no providers and a null config, so every pin's value record is all zeros |
| `Sensor.Sensor4_20mA.Init` | src/Sensor_4_20mA_RK.cpp:17-25 | returns true exactly when every provider's init succeeds; runs them in order and none after the first failure |
| `Sensor.Sensor4_20mA.ReadPin` | src/Sensor_4_20mA_RK.cpp:37-44 | the result is `PinReading`: the first owner's raw code, or 0 |
| `Sensor.Sensor4_20mA.ReadPinValue` | src/Sensor_4_20mA_RK.cpp:46-85 | the field-by-field updates produce `PinValue`: first owner's code, its mA conversion, and the first matching record's scaling |
| `Sensor.Sensor4_20mA.WriteJSON` | src/Sensor_4_20mA_RK.cpp:27-34 | one (name, value) pair per configuration record, in array order, each value being that record's pin read through `readPinValue` |
| `Sensor.Sensor4_20mA.WithNativeADC` | src/Sensor_4_20mA_RK.cpp:86-89 | appends exactly one native provider at the end, keeps the config and returns the same object |
| `Sensor.Sensor4_20mA.WithADS1015` | src/Sensor_4_20mA_RK.h:287-290 | appends exactly one ADS1015 provider at the end, keeps the earlier providers and the config, and returns the same object |
| `Sensor.Sensor4_20mA.WithConfig` | src/Sensor_4_20mA_RK.cpp:91-95 | stores the given configuration, keeps the providers and returns the same object |
| `Scenarios.NativeConversionPoints` | src/Sensor_4_20mA_RK.cpp:122 | the native calibration gives 4 mA at 491, 20 mA at 2469, 12 mA at 1480, and 4 mA (truncated) at 600 |
| `Scenarios.ADS1015Example` | more-examples/1-ADS1015/src/1-ADS1015.cpp:11-24 | the example's setup registers one ADS1015 at pin 100 with two records; the 4 mA code on channel 0 reports 4 for `sen1`; the 20 mA code on channel 1 reports 100 for `sen2`; the JSON pairs are in that order |

## Left out

- Hardware access: `analogRead`, the ADS1015 driver's `begin`, `setGain` and `getSingleEnded` are foreign calls. They are oracle functions in `Hardware`, so one call always gives the same answer. The gain setting after a successful `begin` is not modelled.
- `Log.error` on a failed ADS1015 init, and the `JSONWriter` serialization. `WriteJSON` returns the ordered (name, value) pairs instead of writing them.
- IEEE-754 rounding, NaN and infinity: the arithmetic is over `real`. The `isnan` checks cannot fire in this model, so `WriteJSON` emits every record and `ReadPinValue` always scales a matched record.
- VirtualPins.VirtualPin.ConvertmA: requires distinct calibration codes. With equal codes the C++ divides by zero and converts the result to `int`, which is undefined behaviour. Both provider constructors give distinct codes, and the registry's `Valid()` keeps that for every provider.
- 32-bit `int` overflow: in `virtualPinStart + numVirtualPins`, in `convert_mA`'s subtractions, and in a double-to-int conversion out of range. Integers are unbounded.
- `getSingleEnded` takes a `uint8_t` channel. The model passes the channel as an `int`. This makes no difference for the pins the registry dispatches to, whose channels are 0..3.
- Default arguments of `withADS1015` (the address `ADS1015_ADDRESS_GND` and the bus `Wire`) are not modelled. Their values come from the driver and the platform, which are not part of this model.
- `withConfig` takes a pointer and a length; the model takes an `Option` of a sequence. When no config was ever set, the C++ `writeJSON` loops over the uninitialised `numConfig`. That field is zero for a registry in static storage, and the model emits no pairs.
- Sensor.Sensor4_20mA.WithConfig: the C++ keeps a pointer to the caller's array, so a later write to that array is seen by the next `readPinValue` or `writeJSON`. The model stores the records as a `seq` value, a snapshot taken when `WithConfig` is called, so that aliasing is not captured.
- The destructor's `delete` loop and provider ownership (memory management), and the requirement that the config array outlives the registry (a caller obligation).
- Non-overlap of provider ranges is a caller convention the library never checks. The model does not assume it: overlapping ranges are resolved by first match, as in the code.
- The `setup`/`loop` timing and logging of the example programs. Only their configuration and setup are used, in `Scenarios`.
