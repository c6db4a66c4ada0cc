/** The observable battery resource of the deRFnode
    (project/er-rest-example/resources/res-deRFNode-battery.c). The battery
    voltage reaches ADC0 through a 820 kOhm / 220 kOhm divider; the ADC has a
    1.6 V reference and 10-bit results. Both handlers convert the raw ADC
    value with the same fixed-point formula, in hundredths of a volt. */
module DeRfNodeBattery {
  import opened CInt
  import opened ContentFormat
  import opened FixedPoint
  import opened Observe

  /** `((uint32_t)adcVal * 160) / 1023`: the ADC0 voltage in hundredths of a
      volt, computed in 32-bit unsigned arithmetic. */
  function AdcInV(adcVal: Int16): (r: UInt32)
  {
    ToUInt32(ToUInt32(adcVal) * 160) / 1023
  }

  /** `(adc_in_v * 1040) / 220`, stored in a 16-bit `unsigned int`: the
      battery voltage in hundredths of a volt. */
  function Voltage(adcVal: Int16): (r: UInt16)
  {
    ToUInt16(ToUInt32(AdcInV(adcVal) * 1040) / 220)
  }

  lemma MulMonotone(x: int, y: int, c: nat)
    requires x <= y
    ensures x * c <= y * c
  {
  }

  lemma MulCancel(a: int, b: int, d: int)
    requires d > 0 && a * d < b * d
    ensures a < b
  {
    if a >= b {
      MulMonotone(b, a, d);
    }
  }

  lemma DivMonotone(x: int, y: int, d: int)
    requires 0 <= x <= y && d > 0
    ensures x / d <= y / d
  {
    var qx, qy := x / d, y / d;
    assert qx * d <= x;
    assert y < (qy + 1) * d;
    MulCancel(qx, qy + 1, d);
  }

  /** For every 10-bit ADC result no intermediate wraps: ADC0 lies within
      0..1.60 V and the battery voltage within 0..7.56 V, both being the
      exact integer quotients of the formula. */
  lemma VoltageInRange(adcVal: Int16)
    requires 0 <= adcVal <= 1023
    ensures AdcInV(adcVal) == adcVal * 160 / 1023 <= 160
    ensures Voltage(adcVal) == AdcInV(adcVal) * 1040 / 220 <= 756
  {
    var a: int := adcVal;
    MulMonotone(a, 1023, 160);
    MulMonotone(0, a, 160);
    var p := a * 160;
    assert 0 <= p <= 163680;
    UInt32Exact(a);
    UInt32Exact(p);
    var v := p / 1023;
    DivMonotone(p, 163680, 1023);
    DivMonotone(0, p, 1023);
    assert AdcInV(adcVal) == v && 0 <= v <= 160;
    MulMonotone(v, 160, 1040);
    MulMonotone(0, v, 1040);
    var q := v * 1040;
    assert 0 <= q <= 166400;
    UInt32Exact(q);
    DivMonotone(q, 166400, 220);
    DivMonotone(0, q, 220);
    UInt16Exact(q / 220);
  }

  /** A higher ADC reading never gives a lower voltage. */
  lemma VoltageMonotone(a: Int16, b: Int16)
    requires 0 <= a <= b <= 1023
    ensures AdcInV(a) <= AdcInV(b)
    ensures Voltage(a) <= Voltage(b)
  {
    VoltageInRange(a);
    VoltageInRange(b);
    DivMonotone(a * 160, b * 160, 1023);
    DivMonotone(AdcInV(a) * 1040, AdcInV(b) * 1040, 220);
  }

  /** The GET handler: the voltage `voltage / 100` and `voltage % 100` as
      text or JSON, as the Accept option asks. The two fields recombine to
      the voltage the periodic handler compares, with a fraction in 0..99,
      and for a 10-bit reading the volts are at most 7. */
  function BatteryGet(accept: UInt16, adcVal: Int16): (r: Response<Fields>)
    ensures r.reply.Represented? ==>
      100 * r.reply.value.whole + r.reply.value.hundredths == Voltage(adcVal) &&
      0 <= r.reply.value.hundredths < 100
    ensures r.reply.Represented? && 0 <= adcVal <= 1023 ==> 0 <= r.reply.value.whole <= 7
  {
    var r := Negotiate(accept, Hundredths(Voltage(adcVal)), Hundredths(Voltage(adcVal)));
    if 0 <= adcVal <= 1023 then VoltageInRange(adcVal); r else r
  }

  /** The statics of the periodic handler. */
  class BatteryResource {
    var intervalCounter: int
    var voltageOld: Int16

    function State(): (r: Observer)
      reads this
    {
      Observer(intervalCounter, voltageOld)
    }

    /** `interval_counter = INTERVAL_MIN`, `voltage_old = INT_MIN`. */
    constructor ()
      ensures State() == Initial(INT_MIN)
    {
      intervalCounter := INTERVAL_MIN;
      voltageOld := INT_MIN;
    }

    /** `res_periodic_handler` for the ADC result `adcVal`: one step of the
        notify rule on the converted voltage (as an `int`). The counter stays
        below INTERVAL_MAX. */
    method PeriodicHandler(adcVal: Int16) returns (notify: bool)
      modifies this
      ensures var o := Step(old(State()), ToInt16(Voltage(adcVal)));
        State() == o.next && notify == o.notify
      ensures 0 <= old(intervalCounter) < INTERVAL_MAX ==> 0 <= intervalCounter < INTERVAL_MAX
    {
      var voltage := Voltage(adcVal);
      intervalCounter := intervalCounter + 1;
      if (ChangedEnough(ToInt16(voltage), voltageOld) && intervalCounter >= INTERVAL_MIN) ||
         intervalCounter >= INTERVAL_MAX
      {
        intervalCounter := 0;
        voltageOld := ToInt16(voltage);
        notify := true;
      } else {
        notify := false;
      }
    }
  }

  /** For a 10-bit reading the voltage fits an `int`, so the value the
      periodic handler stores is the voltage the GET handler prints. */
  lemma StoredVoltageIsPrinted(adcVal: Int16)
    requires 0 <= adcVal <= 1023
    ensures ToInt16(Voltage(adcVal)) == Voltage(adcVal)
  {
    VoltageInRange(adcVal);
  }
}
