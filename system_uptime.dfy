/** The system uptime resource of the deRFnode
    (project/er-rest-example/resources/res-system-uptime.c). A process reads
    the 16-bit real-time timer on every pass, accumulates the ticks since the
    previous reading in `rtimer_delta` and moves each whole second into the
    32-bit `uptime_seconds`. The GET handler splits the uptime into days,
    hours, minutes and seconds. */
module SystemUptime {
  import opened CInt
  import opened ContentFormat

  /** `rtimer_clock_t` is an `unsigned short`; its largest value. */
  const RTIMER_CLOCK_T_MAX: UInt16 := USHRT_MAX

  /** `RTIMER_SECOND`, the timer ticks per second: a platform constant, at
      least 1 and a 16-bit value. */
  type TimerRate = x: int | 0 < x < 0x1_0000 witness 1

  // ---------------------------------------------------------------------------
  // One pass of the uptime process

  /** The ticks the code adds to `rtimer_delta` for the readings `last` and
      then `now`: `now - last` when the timer moved forward, otherwise
      `RTIMER_CLOCK_T_MAX - last + now` (including `now == last`). */
  function TickIncrementAsWritten(last: UInt16, now: UInt16): (r: int)
  {
    if now > last then now - last else RTIMER_CLOCK_T_MAX - last + now
  }

  /** The three statics of the process. */
  datatype Clock = Clock(uptimeSeconds: UInt32, rtimerDelta: UInt16, rtimerLast: UInt16)

  /** The state after one pass that reads the timer value `now` and adds
      `increment` ticks. The accumulated ticks (16-bit) are converted into
      whole seconds, which go into the 32-bit uptime, and the remainder below
      one second stays in `rtimer_delta`; `rtimer_last` becomes `now`. */
  function Accumulate(c: Clock, now: UInt16, increment: int, rate: TimerRate): (r: Clock)
    ensures var ticks := ToUInt16(c.rtimerDelta + increment);
      r.uptimeSeconds == ToUInt32(c.uptimeSeconds + ticks / rate) &&
      ticks == (ticks / rate) * rate + r.rtimerDelta
    ensures r.rtimerDelta < rate
    ensures r.rtimerLast == now
  {
    var delta := ToUInt16(c.rtimerDelta + increment);
    WholeSeconds(delta, rate);
    UInt16Exact(delta / rate);
    var elapsed := ToUInt16(delta / rate);
    UInt16Exact(delta - elapsed * rate);
    if elapsed > 0 then
      Clock(ToUInt32(c.uptimeSeconds + elapsed), ToUInt16(delta - elapsed * rate), now)
    else
      Clock(c.uptimeSeconds, delta, now)
  }

  /** One pass of the loop as the code computes it. */
  function Iteration(c: Clock, now: UInt16, rate: TimerRate): (r: Clock)
  {
    Accumulate(c, now, TickIncrementAsWritten(c.rtimerLast, now), rate)
  }

  lemma WholeSeconds(ticks: UInt16, rate: TimerRate)
    ensures 0 <= ticks / rate <= ticks
    ensures ticks - (ticks / rate) * rate == ticks % rate < rate
  {
  }

  /** The statics `uptime_seconds`, `rtimer_delta` and `rtimer_last` of the
      uptime process, for a timer running at `rate` ticks per second. */
  class UptimeProcess {
    var uptimeSeconds: UInt32
    var rtimerDelta: UInt16
    var rtimerLast: UInt16
    const rate: TimerRate

    function State(): (r: Clock)
      reads this
    {
      Clock(uptimeSeconds, rtimerDelta, rtimerLast)
    }

    /** All three statics start at 0. */
    constructor (rate: TimerRate)
      ensures State() == Clock(0, 0, 0) && this.rate == rate
    {
      uptimeSeconds, rtimerDelta, rtimerLast := 0, 0, 0;
      this.rate := rate;
    }

    /** One pass of the `while (1)` loop of `uptime_process`, reading the
        timer value `now` (`RTIMER_NOW()`). */
    method Iterate(now: UInt16)
      modifies this
      ensures State() == Iteration(old(State()), now, rate)
    {
      if now > rtimerLast {
        rtimerDelta := ToUInt16(rtimerDelta + (now - rtimerLast));
      } else {
        rtimerDelta := ToUInt16(rtimerDelta + (RTIMER_CLOCK_T_MAX - rtimerLast + now));
      }
      var elapsedSeconds: UInt16 := ToUInt16(rtimerDelta / rate);
      if elapsedSeconds > 0 {
        uptimeSeconds := ToUInt32(uptimeSeconds + elapsedSeconds);
        rtimerDelta := ToUInt16(rtimerDelta - elapsedSeconds * rate);
      }
      rtimerLast := now;
    }
  }

  /** The ticks a 16-bit timer takes from reading `last` to reading `now`,
      when it wraps at most once: the one count below 2^16 that brings `last`
      to `now` modulo 2^16. */
  function ElapsedTicks(last: UInt16, now: UInt16): (r: UInt16)
    ensures ToUInt16(last + r) == now
  {
    ToUInt16(now - last)
  }

  /** No other count below 2^16 takes the timer from `last` to `now`. */
  lemma ElapsedTicksUnique(last: UInt16, now: UInt16, k: UInt16)
    requires ToUInt16(last + k) == now
    ensures k == ElapsedTicks(last, now)
  {
  }

  /** The code's increment is the elapsed tick count when the timer moved
      forward, and one tick short of it (modulo 2^16) otherwise: every wrap of
      the timer loses a tick, and a pass that sees the same timer value as the
      previous one takes a tick away. */
  lemma TickIncrementAsWrittenVersusElapsed(last: UInt16, now: UInt16)
    ensures now > last ==> TickIncrementAsWritten(last, now) == ElapsedTicks(last, now)
    ensures now <= last ==> ToUInt16(TickIncrementAsWritten(last, now) + 1) == ElapsedTicks(last, now)
    ensures TickIncrementAsWritten(0xFFFF, 0) == 0 && ElapsedTicks(0xFFFF, 0) == 1
    ensures TickIncrementAsWritten(100, 100) == 0xFFFF && ElapsedTicks(100, 100) == 0
  {
  }

  /** Two passes within one timer tick, with nothing accumulated, add eight
      seconds of uptime at a rate of 7812 ticks per second: `rtimer_delta`
      wraps from 0 to 65535. */
  lemma SameReadingAddsSeconds()
    ensures Iteration(Clock(0, 0, 100), 100, 7812) == Clock(8, 3039, 100)
  {
  }

  /** One pass with the intended increment, the ticks the timer actually
      took since the previous reading. */
  function IntendedIteration(c: Clock, now: UInt16, rate: TimerRate): (r: Clock)
  {
    Accumulate(c, now, ElapsedTicks(c.rtimerLast, now), rate)
  }

  lemma AddMul(a: int, b: int, m: int)
    ensures (a + b) * m == a * m + b * m
  {
  }

  /** A pass whose accumulator and uptime do not wrap moves the added ticks
      into whole seconds and pending ticks without losing any. */
  lemma AccumulateKeepsTime(c: Clock, now: UInt16, increment: int, rate: TimerRate)
    requires 0 <= c.rtimerDelta + increment < 0x1_0000
    requires c.uptimeSeconds + (c.rtimerDelta + increment) / rate < 0x1_0000_0000
    ensures var r := Accumulate(c, now, increment, rate);
      r.uptimeSeconds * rate + r.rtimerDelta == c.uptimeSeconds * rate + c.rtimerDelta + increment
  {
    var ticks := c.rtimerDelta + increment;
    UInt16Exact(ticks);
    var q := ticks / rate;
    UInt32Exact(c.uptimeSeconds + q);
    AddMul(c.uptimeSeconds, q, rate);
  }

  /** With the intended increment no tick is lost or invented: as long as
      neither counter wraps, the uptime in ticks plus the pending ticks grows
      by exactly the ticks the timer took. */
  lemma IntendedIterationKeepsTime(c: Clock, now: UInt16, rate: TimerRate)
    requires c.rtimerDelta + ElapsedTicks(c.rtimerLast, now) < 0x1_0000
    requires c.uptimeSeconds + (c.rtimerDelta + ElapsedTicks(c.rtimerLast, now)) / rate < 0x1_0000_0000
    ensures var r := IntendedIteration(c, now, rate);
      r.uptimeSeconds * rate + r.rtimerDelta ==
      c.uptimeSeconds * rate + c.rtimerDelta + ElapsedTicks(c.rtimerLast, now)
  {
    AccumulateKeepsTime(c, now, ElapsedTicks(c.rtimerLast, now), rate);
  }

  /** A pass that sees the same timer value as the previous one, with no
      ticks pending, counts 65535 ticks where none passed: as long as the
      uptime does not wrap, its uptime plus pending ticks grows by 65535. */
  lemma IterationAsWrittenInventsTicks(c: Clock, rate: TimerRate)
    requires c.rtimerDelta == 0
    requires c.uptimeSeconds + 0xFFFF / rate < 0x1_0000_0000
    ensures ElapsedTicks(c.rtimerLast, c.rtimerLast) == 0
    ensures var r := Iteration(c, c.rtimerLast, rate);
      r.uptimeSeconds * rate + r.rtimerDelta == c.uptimeSeconds * rate + c.rtimerDelta + 0xFFFF
  {
    assert TickIncrementAsWritten(c.rtimerLast, c.rtimerLast) == 0xFFFF;
    AccumulateKeepsTime(c, c.rtimerLast, 0xFFFF, rate);
  }

  /** The same repeated reading with ticks pending (below one second, as
      every pass leaves them) takes one of them away and adds no second. */
  lemma IterationAsWrittenLosesTick(c: Clock, rate: TimerRate)
    requires 0 < c.rtimerDelta < rate
    ensures Iteration(c, c.rtimerLast, rate) ==
      Clock(c.uptimeSeconds, c.rtimerDelta - 1, c.rtimerLast)
  {
    var ticks := c.rtimerDelta - 1;
    assert TickIncrementAsWritten(c.rtimerLast, c.rtimerLast) == 0xFFFF;
    assert ToUInt16(c.rtimerDelta + 0xFFFF) == ticks;
    BelowOneSecond(ticks, rate);
    UInt32Exact(c.uptimeSeconds);
  }

  /** Fewer ticks than one second make no whole second. */
  lemma BelowOneSecond(ticks: int, rate: TimerRate)
    requires 0 <= ticks < rate
    ensures ticks / rate == 0
  {
  }

  // ---------------------------------------------------------------------------
  // The days / hours / minutes / seconds split of the GET handler

  /** The printed split: `%hu d %hhu h %hhu m %lu s`. */
  datatype Duration = Duration(days: UInt16, hours: UInt8, minutes: UInt8, seconds: UInt32)

  /** `x -= p` on the `unsigned long` x for an `int` product p: p is computed
      in 16-bit `int` (wrapping) and then converted to `unsigned long`. */
  function SubIntProduct(x: UInt32, p: int): (r: UInt32)
  {
    ToUInt32(x - ToUInt32(ToInt16(p)))
  }

  /** The split as the handler computes it. `days * (60*60*24UL)` is an
      `unsigned long` product, but `hours * (60*60)` and `minutes * 60` are
      16-bit `int` products. */
  function SplitAsWritten(uptime: UInt32): (r: Duration)
  {
    var days := ToUInt16(uptime / 86400);
    var us1 := ToUInt32(uptime - ToUInt32(days * 86400));
    var hours := ToUInt8(us1 / 3600);
    var us2 := SubIntProduct(us1, hours * 3600);
    var minutes := ToUInt8(us2 / 60);
    var us3 := SubIntProduct(us2, minutes * 60);
    Duration(days, hours, minutes, us3)
  }

  /** The split the handler means: whole days, then hours below 24, minutes
      below 60 and seconds below 60, adding up to the uptime. */
  function Split(uptime: UInt32): (d: Duration)
    ensures d.days * 86400 + d.hours * 3600 + d.minutes * 60 + d.seconds == uptime
    ensures d.hours < 24 && d.minutes < 60 && d.seconds < 60
  {
    var days := uptime / 86400;
    assert days < 0x1_0000;
    var rest := uptime % 86400;
    Duration(days, rest / 3600, rest % 3600 / 60, rest % 60)
  }

  /** No other split in range adds up to the same uptime. */
  lemma SplitUnique(uptime: UInt32, d: Duration)
    requires d.days * 86400 + d.hours * 3600 + d.minutes * 60 + d.seconds == uptime
    requires d.hours < 24 && d.minutes < 60 && d.seconds < 60
    ensures d == Split(uptime)
  {
    var below := d.hours * 3600 + d.minutes * 60 + d.seconds;
    assert 0 <= below < 86400;
    assert d.days == uptime / 86400 && below == uptime % 86400;
    var m := d.minutes * 60 + d.seconds;
    assert 0 <= m < 3600;
    assert d.hours == below / 3600 && m == below % 3600;
    assert below % 3600 == uptime % 86400 % 3600;
    assert uptime % 60 == (uptime % 86400) % 60;
  }

  lemma DaysPart(uptime: UInt32)
    ensures ToUInt16(uptime / 86400) == uptime / 86400
    ensures ToUInt32(uptime - ToUInt32(ToUInt16(uptime / 86400) * 86400)) == uptime % 86400
  {
    var days := uptime / 86400;
    assert 0 <= days * 86400 <= uptime;
    UInt16Exact(days);
    UInt32Exact(days * 86400);
    UInt32Exact(uptime % 86400);
  }

  lemma HoursPart(rest: UInt32)
    requires rest < 36000
    ensures ToUInt8(rest / 3600) == rest / 3600
    ensures SubIntProduct(rest, ToUInt8(rest / 3600) * 3600) == rest % 3600
  {
    var hours := rest / 3600;
    assert 0 <= hours <= 9;
    assert 0 <= hours * 3600 <= rest;
    UInt8Exact(hours);
    Int16Exact(hours * 3600);
    UInt32Exact(hours * 3600);
    UInt32Exact(rest % 3600);
  }

  lemma MinutesPart(rest: UInt32)
    requires rest < 3600
    ensures ToUInt8(rest / 60) == rest / 60
    ensures SubIntProduct(rest, ToUInt8(rest / 60) * 60) == rest % 60
  {
    var minutes := rest / 60;
    assert 0 <= minutes * 60 <= rest;
    UInt8Exact(minutes);
    Int16Exact(minutes * 60);
    UInt32Exact(minutes * 60);
    UInt32Exact(rest % 60);
  }

  lemma SecondsOfMinute(rest: int)
    ensures rest % 3600 % 60 == rest % 60
  {
  }

  lemma SplitFieldsBeforeTenHours(uptime: UInt32)
    requires uptime % 86400 < 36000
    ensures SplitAsWritten(uptime).days == Split(uptime).days
    ensures SplitAsWritten(uptime).hours == Split(uptime).hours
    ensures SplitAsWritten(uptime).minutes == Split(uptime).minutes
    ensures SplitAsWritten(uptime).seconds == Split(uptime).seconds
  {
    var rest := uptime % 86400;
    DaysPart(uptime);
    HoursPart(rest);
    MinutesPart(rest % 3600);
    SecondsOfMinute(rest);
  }

  /** While the hours of the day are at most 9 every product fits in 16 bits
      and the handler's split is the intended one. */
  lemma SplitAsWrittenBeforeTenHours(uptime: UInt32)
    requires uptime % 86400 < 36000
    ensures SplitAsWritten(uptime) == Split(uptime)
  {
    SplitFieldsBeforeTenHours(uptime);
  }

  /** From ten hours into a day `hours * (60*60)` no longer fits a 16-bit
      `int`: at exactly ten hours the handler reports 68 minutes and 61456
      seconds. */
  lemma SplitAsWrittenAtTenHours()
    ensures SplitAsWritten(36000) == Duration(0, 10, 68, 61456)
    ensures Split(36000) == Duration(0, 10, 0, 0)
  {
    assert ToUInt16(36000 / 86400) == 0;
    assert ToUInt32(36000 - ToUInt32(0 * 86400)) == 36000;
    assert ToUInt8(36000 / 3600) == 10;
    assert ToInt16(10 * 3600) == -29536;
    assert ToUInt32(-29536) == 4294937760;
    assert ToUInt32(36000 - 4294937760) == 65536;
    assert SubIntProduct(36000, 10 * 3600) == 65536;
    assert ToUInt8(65536 / 60) == 68;
    assert ToInt16(68 * 60) == 4080;
    assert ToUInt32(4080) == 4080;
    assert ToUInt32(65536 - 4080) == 61456;
    assert SubIntProduct(65536, 68 * 60) == 61456;
  }

  // ---------------------------------------------------------------------------
  // The GET handler

  /** What the two representations print: the text names the split, the
      total uptime and `clock_seconds()`; the JSON object only the split. */
  datatype UptimeBody =
    | UptimeText(split: Duration, uptimeSeconds: UInt32, clockSeconds: UInt32)
    | UptimeJson(split: Duration)

  /** `res_get_handler` for the current `uptime_seconds` and
      `clock_seconds()`. Both representations carry the handler's split of
      the uptime, which for the first ten hours of every day adds up to the
      uptime with hours, minutes and seconds in range. */
  function UptimeGet(accept: UInt16, uptimeSeconds: UInt32, clockSeconds: UInt32): (r: Response<UptimeBody>)
    ensures r.reply.Represented? ==> r.reply.value.split == SplitAsWritten(uptimeSeconds)
    ensures r.reply.Represented? && uptimeSeconds % 86400 < 36000 ==>
      var d := r.reply.value.split;
      d.days * 86400 + d.hours * 3600 + d.minutes * 60 + d.seconds == uptimeSeconds &&
      d.hours < 24 && d.minutes < 60 && d.seconds < 60
    ensures r.reply.Represented? && r.reply.contentType == TEXT_PLAIN ==>
      r.reply.value == UptimeText(SplitAsWritten(uptimeSeconds), uptimeSeconds, clockSeconds)
  {
    var d := SplitAsWritten(uptimeSeconds);
    var r := Negotiate(accept, UptimeText(d, uptimeSeconds, clockSeconds), UptimeJson(d));
    if uptimeSeconds % 86400 < 36000 then SplitAsWrittenBeforeTenHours(uptimeSeconds); r else r
  }
}
