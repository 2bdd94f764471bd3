/** The registry and dispatcher: an ordered list of virtual-pin providers
    (insertion order is probe order) and an optional, borrowed array of
    per-sensor configuration records. */
module Sensor {
  import opened SensorTypes
  import opened VirtualPins

  /** Every provider can convert codes to mA. Both provider constructors give
      this, and the registry keeps it. */
  predicate AllCalibrated(ps: seq<VirtualPin>)
  {
    forall i :: 0 <= i < |ps| ==> ps[i].Calibrated()
  }

  /** The index of the first provider whose range contains `pin`. */
  function FirstOwner(ps: seq<VirtualPin>, pin: int): (r: Option<nat>)
    ensures r.None? <==> forall j :: 0 <= j < |ps| ==> !ps[j].IsInRange(pin)
    ensures r.Some? ==> r.value < |ps| && ps[r.value].IsInRange(pin)
    ensures r.Some? ==> forall j :: 0 <= j < r.value ==> !ps[j].IsInRange(pin)
  {
    if |ps| == 0 then None
    else if ps[0].IsInRange(pin) then Some(0)
    else match FirstOwner(ps[1..], pin)
      case None => None
      case Some(i) => Some(i + 1)
  }

  /** The index of the first configuration record for `pin`. */
  function FirstConfig(cs: seq<SensorConfig>, pin: int): (r: Option<nat>)
    ensures r.None? <==> forall j :: 0 <= j < |cs| ==> cs[j].virtualPin != pin
    ensures r.Some? ==> r.value < |cs| && cs[r.value].virtualPin == pin
    ensures r.Some? ==> forall j :: 0 <= j < r.value ==> cs[j].virtualPin != pin
  {
    if |cs| == 0 then None
    else if cs[0].virtualPin == pin then Some(0)
    else match FirstConfig(cs[1..], pin)
      case None => None
      case Some(i) => Some(i + 1)
  }

  /** The records a configuration pointer gives access to; a null pointer
      gives none. */
  function ConfigRecords(config: Option<seq<SensorConfig>>): seq<SensorConfig>
  {
    match config
    case None => []
    case Some(cs) => cs
  }

  /** The configured value for a current of `mA`: the range mapping chosen by
      `valueLowIs4mA`, then the offset, then the multiplier. */
  function Scale(c: SensorConfig, mA: real): real
  {
    var ranged :=
      if c.valueLowIs4mA then (mA - 4.0) * (c.value20mA - c.valueLow) / 16.0 + c.valueLow
      else mA * (c.value20mA - c.valueLow) / 20.0;
    (ranged + c.offset) * c.multiplier
  }

  /** What `readPin` returns: the first owner's raw code, or 0. */
  function PinReading(ps: seq<VirtualPin>, hw: Hardware, pin: int): int
  {
    match FirstOwner(ps, pin)
    case None => 0
    case Some(i) => ps[i].ReadPin(hw, pin)
  }

  /** What `readPinValue` returns. */
  function PinValue(ps: seq<VirtualPin>, config: Option<seq<SensorConfig>>, hw: Hardware, pin: int): SensorValue
    requires AllCalibrated(ps)
  {
    match FirstOwner(ps, pin)
    case None => ZeroValue
    case Some(i) =>
      var adc := ps[i].ReadPin(hw, pin);
      var mA := ps[i].ConvertmA(adc) as real;
      var cs := ConfigRecords(config);
      match FirstConfig(cs, pin)
      case None => SensorValue(adc, mA, mA)
      case Some(j) => SensorValue(adc, mA, Scale(cs[j], mA))
  }

  // ---------------------------------------------------------------------
  // Dispatch

  /** `readPin` answers with the provider of lowest index that claims the pin. */
  lemma ReadingFromFirstOwner(ps: seq<VirtualPin>, hw: Hardware, pin: int, i: nat)
    requires i < |ps| && ps[i].IsInRange(pin)
    requires forall j :: 0 <= j < i ==> !ps[j].IsInRange(pin)
    ensures PinReading(ps, hw, pin) == ps[i].ReadPin(hw, pin)
  {
  }

  /** A pin that no provider claims reads as 0, and its value record is all
      zeros whatever the configuration says. */
  lemma UnclaimedPin(ps: seq<VirtualPin>, config: Option<seq<SensorConfig>>, hw: Hardware, pin: int)
    requires AllCalibrated(ps)
    requires forall j :: 0 <= j < |ps| ==> !ps[j].IsInRange(pin)
    ensures PinReading(ps, hw, pin) == 0
    ensures PinValue(ps, config, hw, pin) == ZeroValue
  {
  }

  /** The raw code in the value record is what `readPin` returns, and the mA
      field is that code converted by the owning provider. */
  lemma ValueCarriesReading(ps: seq<VirtualPin>, config: Option<seq<SensorConfig>>, hw: Hardware, pin: int, i: nat)
    requires AllCalibrated(ps)
    requires i < |ps| && ps[i].IsInRange(pin)
    requires forall j :: 0 <= j < i ==> !ps[j].IsInRange(pin)
    ensures PinValue(ps, config, hw, pin).adcValue == PinReading(ps, hw, pin) == ps[i].ReadPin(hw, pin)
    ensures PinValue(ps, config, hw, pin).mA == ps[i].ConvertmA(ps[i].ReadPin(hw, pin)) as real
  {
  }

  lemma FirstOwnerAppend(ps: seq<VirtualPin>, qs: seq<VirtualPin>, pin: int)
    ensures FirstOwner(ps + qs, pin) ==
      match FirstOwner(ps, pin)
      case Some(i) => Some(i)
      case None =>
        match FirstOwner(qs, pin)
        case None => None
        case Some(k) => Some(|ps| + k)
  {
    var r := FirstOwner(ps + qs, pin);
    assert forall j :: 0 <= j < |ps| ==> (ps + qs)[j] == ps[j];
    assert forall j :: 0 <= j < |qs| ==> (ps + qs)[|ps| + j] == qs[j];
    match FirstOwner(ps, pin)
    case Some(i) =>
      assert !(r.value < i) && !(i < r.value);
    case None =>
      match FirstOwner(qs, pin)
      case None =>
        assert forall j :: 0 <= j < |ps + qs| ==> !(ps + qs)[j].IsInRange(pin) by {
          forall j | 0 <= j < |ps + qs| ensures !(ps + qs)[j].IsInRange(pin) {
            if j >= |ps| { assert (ps + qs)[j] == qs[j - |ps|]; }
          }
        }
      case Some(k) =>
        assert (ps + qs)[|ps| + k] == qs[k];
        assert r.value >= |ps|;
        assert (ps + qs)[r.value] == qs[r.value - |ps|];
        assert !(r.value - |ps| < k) && !(k < r.value - |ps|);
  }

  lemma AllCalibratedAppend(ps: seq<VirtualPin>, qs: seq<VirtualPin>)
    ensures AllCalibrated(ps + qs) <==> AllCalibrated(ps) && AllCalibrated(qs)
  {
    assert forall j :: 0 <= j < |ps| ==> (ps + qs)[j] == ps[j];
    assert forall j :: 0 <= j < |qs| ==> (ps + qs)[|ps| + j] == qs[j];
  }

  /** Providers added after the one that claims a pin are never consulted for
      it: appending providers leaves the reading and the value unchanged. */
  lemma LaterProvidersIgnored(ps: seq<VirtualPin>, qs: seq<VirtualPin>, config: Option<seq<SensorConfig>>, hw: Hardware, pin: int)
    requires AllCalibrated(ps) && AllCalibrated(qs)
    requires exists j :: 0 <= j < |ps| && ps[j].IsInRange(pin)
    ensures AllCalibrated(ps + qs)
    ensures PinReading(ps + qs, hw, pin) == PinReading(ps, hw, pin)
    ensures PinValue(ps + qs, config, hw, pin) == PinValue(ps, config, hw, pin)
  {
    AllCalibratedAppend(ps, qs);
    FirstOwnerAppend(ps, qs, pin);
    var i := FirstOwner(ps, pin).value;
    assert (ps + qs)[i] == ps[i];
  }

  /** A pin that the earlier providers leave unclaimed is answered by the
      appended ones exactly as if they stood alone. */
  lemma AppendedProvidersClaimTheRest(ps: seq<VirtualPin>, qs: seq<VirtualPin>, config: Option<seq<SensorConfig>>, hw: Hardware, pin: int)
    requires AllCalibrated(ps) && AllCalibrated(qs)
    requires forall j :: 0 <= j < |ps| ==> !ps[j].IsInRange(pin)
    ensures AllCalibrated(ps + qs)
    ensures PinReading(ps + qs, hw, pin) == PinReading(qs, hw, pin)
    ensures PinValue(ps + qs, config, hw, pin) == PinValue(qs, config, hw, pin)
  {
    AllCalibratedAppend(ps, qs);
    FirstOwnerAppend(ps, qs, pin);
    match FirstOwner(qs, pin)
    case None =>
    case Some(k) =>
      assert (ps + qs)[|ps| + k] == qs[k];
  }

  // ---------------------------------------------------------------------
  // Configuration lookup

  /** With no configuration, or none for this pin, the value is the mA
      reading itself. */
  lemma UnconfiguredPinReadsmA(ps: seq<VirtualPin>, config: Option<seq<SensorConfig>>, hw: Hardware, pin: int)
    requires AllCalibrated(ps)
    requires exists j :: 0 <= j < |ps| && ps[j].IsInRange(pin)
    requires config.None? || forall k :: 0 <= k < |config.value| ==> config.value[k].virtualPin != pin
    ensures FirstOwner(ps, pin).Some?
    ensures var v := PinValue(ps, config, hw, pin);
            v.value == v.mA && v.mA == ps[FirstOwner(ps, pin).value].ConvertmA(v.adcValue) as real
  {
  }

  /** The first record naming the pin scales the value; it does not matter
      what the records after it say. */
  lemma FirstConfigApplied(ps: seq<VirtualPin>, cs: seq<SensorConfig>, hw: Hardware, pin: int, j: nat)
    requires AllCalibrated(ps)
    requires exists i :: 0 <= i < |ps| && ps[i].IsInRange(pin)
    requires j < |cs| && cs[j].virtualPin == pin
    requires forall k :: 0 <= k < j ==> cs[k].virtualPin != pin
    ensures var v := PinValue(ps, Some(cs), hw, pin);
            v.value == Scale(cs[j], v.mA)
  {
  }

  lemma FirstConfigAppend(cs: seq<SensorConfig>, ds: seq<SensorConfig>, pin: int)
    requires FirstConfig(cs, pin).Some?
    ensures FirstConfig(cs + ds, pin) == FirstConfig(cs, pin)
  {
    var j := FirstConfig(cs, pin).value;
    var r := FirstConfig(cs + ds, pin);
    assert (cs + ds)[j] == cs[j];
    assert forall k :: 0 <= k < |cs| ==> (cs + ds)[k] == cs[k];
    assert !(r.value < j);
  }

  /** Records after the first one for a pin, duplicates included, have no
      effect on that pin's value. */
  lemma LaterConfigsIgnored(ps: seq<VirtualPin>, cs: seq<SensorConfig>, ds: seq<SensorConfig>, hw: Hardware, pin: int)
    requires AllCalibrated(ps)
    requires exists j :: 0 <= j < |cs| && cs[j].virtualPin == pin
    ensures PinValue(ps, Some(cs + ds), hw, pin) == PinValue(ps, Some(cs), hw, pin)
  {
    FirstConfigAppend(cs, ds, pin);
    var j := FirstConfig(cs, pin).value;
    assert (cs + ds)[j] == cs[j];
  }

  // ---------------------------------------------------------------------
  // Scaling

  /** With the low value at 4 mA, the calibration points land on the low and
      the high value, each shifted by the offset and then multiplied. */
  lemma ScaleLowAt4mA(c: SensorConfig)
    requires c.valueLowIs4mA
    ensures Scale(c, 4.0) == (c.valueLow + c.offset) * c.multiplier
    ensures Scale(c, 20.0) == (c.value20mA + c.offset) * c.multiplier
  {
  }

  /** With the low value at 0 mA the range mapping does not add the low
      value: 0 mA maps to 0 and 20 mA to the span, before offset and multiplier. */
  lemma ScaleLowAt0mA(c: SensorConfig)
    requires !c.valueLowIs4mA
    ensures Scale(c, 0.0) == c.offset * c.multiplier
    ensures Scale(c, 20.0) == (c.value20mA - c.valueLow + c.offset) * c.multiplier
  {
  }

  /** The configuration an application gets by naming only the pin and the
      sensor leaves the mA reading unchanged. */
  lemma DefaultConfigIsIdentity(pin: int, name: string, mA: real)
    ensures Scale(DefaultConfig(pin, name), mA) == mA
  {
  }

  /** The mapping is affine: the value moves by a fixed gain per mA. */
  lemma ScaleAffine(c: SensorConfig, x: real, y: real)
    ensures Scale(c, y) - Scale(c, x) ==
      (y - x) * (c.value20mA - c.valueLow) * c.multiplier / (if c.valueLowIs4mA then 16.0 else 20.0)
  {
  }

  /** An increasing range with a non-negative multiplier never lowers the
      value when the current rises. */
  lemma ScaleMonotone(c: SensorConfig, x: real, y: real)
    requires c.valueLow <= c.value20mA && c.multiplier >= 0.0
    requires x <= y
    ensures Scale(c, x) <= Scale(c, y)
  {
    ScaleAffine(c, x, y);
    var span := c.value20mA - c.valueLow;
    assert (y - x) * span >= 0.0;
    assert (y - x) * span * c.multiplier >= 0.0;
  }

  // ---------------------------------------------------------------------
  // The registry object

  class Sensor4_20mA {
    /** The providers, owned by the registry, in probe order. */
    var virtualPins: seq<VirtualPin>
    /** The borrowed configuration array with its length; None is a null
        pointer. */
    var config: Option<seq<SensorConfig>>

    predicate Valid()
      reads this
    {
      AllCalibrated(virtualPins)
    }

    /** A fresh registry: no providers and no configuration, so every pin is
        unclaimed and nothing is scaled. */
    constructor ()
      ensures Valid()
      ensures virtualPins == [] && config == None
      ensures forall hw: Hardware, pin: int :: PinValue(virtualPins, config, hw, pin) == ZeroValue
    {
      virtualPins := [];
      config := None;
    }

    /** Runs every provider's `Init` in list order and stops at the first
        failure. `attempted` counts the providers whose `Init` was run. */
    method Init(hw: Hardware) returns (ok: bool, ghost attempted: nat)
      ensures ok <==> forall i :: 0 <= i < |virtualPins| ==> virtualPins[i].Init(hw)
      ensures attempted <= |virtualPins|
      ensures forall i :: 0 <= i < attempted - 1 ==> virtualPins[i].Init(hw)
      ensures ok ==> attempted == |virtualPins|
      ensures !ok ==> 0 < attempted && !virtualPins[attempted - 1].Init(hw)
    {
      attempted := 0;
      var ii := 0;
      while ii < |virtualPins|
        invariant 0 <= ii <= |virtualPins|
        invariant attempted == ii
        invariant forall i :: 0 <= i < ii ==> virtualPins[i].Init(hw)
      {
        var bResult := virtualPins[ii].Init(hw);
        attempted := attempted + 1;
        if !bResult {
          return false, attempted;
        }
        ii := ii + 1;
      }
      return true, attempted;
    }

    /** The raw code for `pin`, from the first provider that claims it. */
    method ReadPin(hw: Hardware, pin: int) returns (r: int)
      ensures r == PinReading(virtualPins, hw, pin)
    {
      var ii := 0;
      while ii < |virtualPins|
        invariant 0 <= ii <= |virtualPins|
        invariant forall k :: 0 <= k < ii ==> !virtualPins[k].IsInRange(pin)
      {
        if virtualPins[ii].IsInRange(pin) {
          ReadingFromFirstOwner(virtualPins, hw, pin, ii);
          return virtualPins[ii].ReadPin(hw, pin);
        }
        ii := ii + 1;
      }
      return 0;
    }

    /** The raw code, the mA value and the configured value for `pin`. */
    method ReadPinValue(hw: Hardware, pin: int) returns (result: SensorValue)
      requires Valid()
      ensures result == PinValue(virtualPins, config, hw, pin)
    {
      result := ZeroValue;
      var ii := 0;
      while ii < |virtualPins|
        invariant 0 <= ii <= |virtualPins|
        invariant forall k :: 0 <= k < ii ==> !virtualPins[k].IsInRange(pin)
        invariant result == ZeroValue
      {
        if virtualPins[ii].IsInRange(pin) {
          var owner := virtualPins[ii];
          assert FirstOwner(virtualPins, pin) == Some(ii) by {
            var k := FirstOwner(virtualPins, pin).value;
            assert !(k < ii) && !(ii < k);
          }
          result := result.(adcValue := owner.ReadPin(hw, pin));
          var mA := owner.ConvertmA(result.adcValue) as real;
          result := result.(mA := mA, value := mA);
          if config.Some? {
            var cs := config.value;
            var jj := 0;
            while jj < |cs|
              invariant 0 <= jj <= |cs|
              invariant forall k :: 0 <= k < jj ==> cs[k].virtualPin != pin
              invariant result == SensorValue(owner.ReadPin(hw, pin), mA, mA)
            {
              if cs[jj].virtualPin == pin {
                assert FirstConfig(cs, pin) == Some(jj) by {
                  var k := FirstConfig(cs, pin).value;
                  assert !(k < jj) && !(jj < k);
                }
                var c := cs[jj];
                if c.valueLowIs4mA {
                  // the low value is the reading at 4 mA
                  result := result.(value := (result.mA - 4.0) * (c.value20mA - c.valueLow) / 16.0 + c.valueLow);
                } else {
                  // the low value is the reading at 0 mA
                  result := result.(value := result.mA * (c.value20mA - c.valueLow) / 20.0);
                }
                result := result.(value := result.value + c.offset);
                result := result.(value := result.value * c.multiplier);
                return result;
              }
              jj := jj + 1;
            }
          }
          return result;
        }
        ii := ii + 1;
      }
      return result;
    }

    /** The (name, value) pairs written to JSON, one per configuration record,
        in array order. */
    method WriteJSON(hw: Hardware) returns (pairs: seq<(string, real)>)
      requires Valid()
      ensures |pairs| == |ConfigRecords(config)|
      ensures forall k :: 0 <= k < |pairs| ==>
        pairs[k] == (ConfigRecords(config)[k].name,
                     PinValue(virtualPins, config, hw, ConfigRecords(config)[k].virtualPin).value)
    {
      pairs := [];
      var cs := ConfigRecords(config);
      var jj := 0;
      while jj < |cs|
        invariant 0 <= jj <= |cs|
        invariant |pairs| == jj
        invariant forall k :: 0 <= k < jj ==>
          pairs[k] == (cs[k].name, PinValue(virtualPins, config, hw, cs[k].virtualPin).value)
      {
        var value := ReadPinValue(hw, cs[jj].virtualPin);
        pairs := pairs + [(cs[jj].name, value.value)];
        jj := jj + 1;
      }
    }

    /** Appends a native-ADC provider and returns the same registry. */
    method WithNativeADC() returns (self: Sensor4_20mA)
      requires Valid()
      modifies this
      ensures self == this && Valid()
      ensures virtualPins == old(virtualPins) + [NewNative()]
      ensures config == old(config)
    {
      AllCalibratedAppend(virtualPins, [NewNative()]);
      virtualPins := virtualPins + [NewNative()];
      return this;
    }

    /** Appends an ADS1015 provider for four pins from `virtualPinStart` and
        returns the same registry. */
    method WithADS1015(virtualPinStart: int, i2cAddr: I2cAddress, wire: WireId) returns (self: Sensor4_20mA)
      requires Valid()
      modifies this
      ensures self == this && Valid()
      ensures virtualPins == old(virtualPins) + [NewADS1015(virtualPinStart, i2cAddr, wire)]
      ensures config == old(config)
    {
      var p := NewADS1015(virtualPinStart, i2cAddr, wire);
      AllCalibratedAppend(virtualPins, [p]);
      virtualPins := virtualPins + [p];
      return this;
    }

    /** Stores the configuration records and returns the same registry. */
    method WithConfig(config: Option<seq<SensorConfig>>) returns (self: Sensor4_20mA)
      requires Valid()
      modifies this
      ensures self == this && Valid()
      ensures this.config == config && virtualPins == old(virtualPins)
    {
      this.config := config;
      return this;
    }
  }
}
