/** The observable internal temperature sensor resource of the
    ATmega128RFA1 (project/er-rest-example/resources/res-atmega128rfa1-temp.c).
    The sensor reading is an `int` in hundredths of a degree Celsius; the GET
    handler prints it as `t / 100` and `t % 100`, and the periodic handler
    applies the notify rule to it. */
module CpuTemperature {
  import opened CInt
  import opened ContentFormat
  import opened FixedPoint
  import opened Observe

  /** The GET handler for the reading `temperature`: the two fields as text
      or JSON, as the Accept option asks. The fields recombine to the
      reading, with C's truncating division: the second field is below 100
      in magnitude and has the sign of the reading. */
  function TemperatureGet(accept: UInt16, temperature: Int16): (r: Response<Fields>)
    ensures r.reply.Represented? ==>
      100 * r.reply.value.whole + r.reply.value.hundredths == temperature &&
      -100 < r.reply.value.hundredths < 100 &&
      (temperature < 0 ==> r.reply.value.hundredths <= 0) &&
      (temperature >= 0 ==> r.reply.value.hundredths >= 0)
  {
    Negotiate(accept, Hundredths(temperature), Hundredths(temperature))
  }

  /** The statics of the periodic handler. */
  class TemperatureResource {
    var intervalCounter: int
    var temperatureOld: Int16

    function State(): (r: Observer)
      reads this
    {
      Observer(intervalCounter, temperatureOld)
    }

    /** `interval_counter = INTERVAL_MIN`, `temperature_old = 0`. */
    constructor ()
      ensures State() == Initial(0)
    {
      intervalCounter := INTERVAL_MIN;
      temperatureOld := 0;
    }

    /** `res_periodic_handler` for the sensor reading `temperature`: one step
        of the notify rule. The counter stays below INTERVAL_MAX. */
    method PeriodicHandler(temperature: Int16) returns (notify: bool)
      modifies this
      ensures var o := Step(old(State()), temperature);
        State() == o.next && notify == o.notify
      ensures 0 <= old(intervalCounter) < INTERVAL_MAX ==> 0 <= intervalCounter < INTERVAL_MAX
    {
      intervalCounter := intervalCounter + 1;
      if (ChangedEnough(temperature, temperatureOld) && intervalCounter >= INTERVAL_MIN) ||
         intervalCounter >= INTERVAL_MAX
      {
        intervalCounter := 0;
        temperatureOld := temperature;
        notify := true;
      } else {
        notify := false;
      }
    }
  }

  // ---------------------------------------------------------------------------
  // The printed form of a negative reading

  /** For a reading of -0.99 to -0.01 degrees the integer field is 0 and the
      fraction field is the negative reading itself, so `"%3d.%02d"` puts the
      minus sign after the point (-5 is printed as "0.-5"); below that every
      reading that is not whole degrees has a negative fraction field too
      (-150 is printed as "-1.-50"). */
  lemma NegativeReadingFields(t: int)
    ensures -100 < t < 0 ==> Hundredths(t) == Fields(0, t)
    ensures t < 0 && Hundredths(t).hundredths != 0 ==> Hundredths(t).hundredths < 0
    ensures Hundredths(-5) == Fields(0, -5) && Hundredths(-150) == Fields(-1, -50)
  {
    if -100 < t < 0 {
      HundredthsUnique(t, Fields(0, t));
    }
    HundredthsUnique(-5, Fields(0, -5));
    HundredthsUnique(-150, Fields(-1, -50));
  }

  /** A reading as a signed decimal: the sign, the whole degrees and the two
      decimal digits of its magnitude. */
  datatype Reading = Reading(negative: bool, units: nat, hundredths: nat)

  /** The decimal form the printed fields are meant to show: a sign, then
      `|t| / 100` and `|t| % 100`. The reading is recovered from it, the
      digits are below 100 and the sign is shown exactly for negative t. */
  function DecimalReading(t: int): (d: Reading)
    ensures d.hundredths < 100
    ensures d.negative <==> t < 0
    ensures (if d.negative then -1 else 1) * (100 * d.units + d.hundredths) == t
  {
    var m := Abs(t);
    Reading(t < 0, m / 100, m % 100)
  }

  /** For non-negative readings the printed fields are the decimal form; for
      negative ones that are not whole degrees they never are, since the
      fraction field is negative while the decimal digits are not. */
  lemma FieldsMatchDecimalExactlyWhenNonNegative(t: int)
    ensures t >= 0 ==>
      Hundredths(t).whole == DecimalReading(t).units &&
      Hundredths(t).hundredths == DecimalReading(t).hundredths
    ensures t < 0 && t % 100 != 0 ==>
      Hundredths(t).hundredths != DecimalReading(t).hundredths
  {
    if t >= 0 {
      HundredthsUnique(t, Fields(DecimalReading(t).units, DecimalReading(t).hundredths));
    }
  }
}
