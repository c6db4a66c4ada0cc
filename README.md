# deRFnode USB FIFO driver and REST resource arithmetic

A Dafny model of two parts of the HTWDD-RN Contiki port for the ATmega128RFA1:

- **The byte interface to the FTDI USB FIFO chip on the deRFnode**
  (`platform/avr-atmega128rfa1/usb-de-rfnode.c`, with its pin table in
  `platform/avr-atmega128rfa1/usb.h`).
  - The I/O ports B, D, E, F and G form a register bank of DDR, PORT and PIN bytes (`AvrIo.IoRegisters`).
  - Every driver routine is a method that performs the C code's single-bit read-modify-write operations in the C code's order.
  - A ghost trace records the register writes and the data-line reads.
  - Eight independently wired data lines carry a byte. Reading and writing are proved against the table-driven functions `LineCodec.Drive` and `LineCodec.Sample`.
  - The round trip holds for every table of distinct pins whose distinct bits cover all eight bits of the byte.
- **The integer state machines and fixed-point arithmetic of three CoAP resources**:
  - the uptime process and its GET handler (`res-system-uptime.c`);
  - the battery resource (`res-deRFNode-battery.c`);
  - the internal temperature resource (`res-atmega128rfa1-temp.c`).

  Their statics are classes: the periodic handlers of battery and temperature, and the uptime process. Their GET handlers are functions returning the negotiated content format and the printed integers.

## C semantics

- **Integer widths.** The C integer widths of avr-gcc are written out in `CInt`:
  - `int` and `unsigned int` are 16 bits;
  - `long` is 32 bits;
  - `unsigned char` is 8 bits.

  Stores into unsigned types reduce modulo 2^n. Signed 16-bit `int` products are modelled with two's-complement wrap.
- **Plain `char`.** Plain `char` is signed on avr-gcc, so the character that `usb_putc_std22` takes and returns is an 8-bit signed `CInt.Int8`.
- **Division.** C's truncating `/` and `%` are `CInt.CDiv` and `CInt.CRem`.
- **Content formats.** The CoAP content formats are those of section 12.3 of RFC 7252: text/plain is 0 and application/json is 50.
- **Unset Accept option.** An absent Accept option leaves `accept` at `-1`, which is 0xFFFF in a 16-bit `unsigned int`.
- **Timer rate.** `RTIMER_SECOND` is a parameter: a positive 16-bit value.

Each data line, RXF, TXE, RD and WR is one `AvrIo.Pin`, a port and a bit. usb.h names each line through four macros (`_PIN`, `_PORT`, `_DDR`, `_PINS`). In the model these always belong to the same port: one `Pin` value stands for all four macros, so the macros cannot disagree.

## Model

| member | source | states |
|---|---|---|
| CInt.CDivRem | project/er-rest-example/resources/res-atmega128rfa1-temp.c:60 | C's truncating quotient and remainder recombine to the dividend; the remainder is below the divisor in magnitude and takes the dividend's sign |
| CInt.CDivDiffersFromEuclidean | project/er-rest-example/resources/res-atmega128rfa1-temp.c:60 | for -150 and 100 the C operators give -1 and -50 while the Euclidean ones give -2 and 50 |
| CInt.CDiv | project/er-rest-example/resources/res-atmega128rfa1-temp.c:60 | C's `/`, truncating toward zero; its properties are stated by `CInt.CDivRem` |
| CInt.CRem | project/er-rest-example/resources/res-atmega128rfa1-temp.c:60 | C's `%`, whose result takes the dividend's sign; its properties are stated by `CInt.CDivRem` |
| AvrIo.WithBit | platform/avr-atmega128rfa1/usb-de-rfnode.c:168-175 | setting or clearing bit k with `_BV(k)` gives bit k the level and keeps the seven other bits |
| AvrIo.Bank.With | platform/avr-atmega128rfa1/usb-de-rfnode.c:252-259 | a single-bit write to a port register sets that line's bit and keeps every other line's bit |
| AvrIo.LevelsDetermineBank | platform/avr-atmega128rfa1/usb-de-rfnode.c:40-44 | two register banks that agree on every line are equal |
| AvrIo.IoRegisters.SetDdr | platform/avr-atmega128rfa1/usb-de-rfnode.c:168-175 | setting or clearing bit n of `DDRx` changes exactly that DDR bit, leaves PORT and PIN alone and records one direction write |
| AvrIo.IoRegisters.SetPort | platform/avr-atmega128rfa1/usb-de-rfnode.c:252-259 | setting or clearing bit n of `PORTx` changes exactly that PORT bit, leaves DDR and PIN alone and records one level write |
| AvrIo.IoRegisters.ReadPin | platform/avr-atmega128rfa1/usb-de-rfnode.c:192-199 | testing bit n of `PINx` returns that line's PIN level, changes no register and records one read of that line |
| AvrIo.IoRegisters.Sense | platform/avr-atmega128rfa1/usb-de-rfnode.c:87 | the chip changes the PIN levels; DDR, PORT and the trace stay |
| LineCodec.SetDirections | platform/avr-atmega128rfa1/usb-de-rfnode.c:168-175 | every line of the table gets the direction; every pin off the table keeps its bit |
| LineCodec.Drive | platform/avr-atmega128rfa1/usb-de-rfnode.c:252-259 | setting each line's PORT bit from the byte changes no pin off the table |
| LineCodec.SampleStep | platform/avr-atmega128rfa1/usb-de-rfnode.c:192 | one line's sampling statement makes its data bit the line's PIN level and keeps the other bits |
| LineCodec.Sample | platform/avr-atmega128rfa1/usb-de-rfnode.c:192-199 | sampling the table leaves every bit off the table as it was |
| LineCodec.SampleFrom | platform/avr-atmega128rfa1/usb-de-rfnode.c:192-199 | sampling the table from entry k on is sampling entry k and then the entries after it |
| LineCodec.DriveLevel | platform/avr-atmega128rfa1/usb-de-rfnode.c:252-259 | with distinct pins, each line's PORT bit after driving is its bit of the byte |
| LineCodec.SampleBit | platform/avr-atmega128rfa1/usb-de-rfnode.c:192-199 | with distinct bits, each line's data bit after sampling is its PIN level |
| LineCodec.RoundTrip | platform/avr-atmega128rfa1/usb-de-rfnode.c:192-259 | on any byte wiring, sampling PIN levels equal to the PORT bits left by driving v yields v |
| UsbPins.SelectVariant | platform/avr-atmega128rfa1/usb.h:4-8 | the `#if (DE_PLATFORM == ...)` tests compile in the deRFnode branch exactly for platform 2 (DE_PLATFORM is 2), the sensor-board branch exactly for 1, and neither otherwise |
| UsbPins.CompiledVariant | platform/avr-atmega128rfa1/usb.h:4-8 | with DE_PLATFORM 2 the build compiles the deRFnode branch |
| UsbPins.SelectWiring | platform/avr-atmega128rfa1/usb.h:25 | the REV00 wiring is chosen exactly when REV01 is undefined or REV00 is defined |
| UsbPins.RdPin | platform/avr-atmega128rfa1/usb.h:32-45 | RD is PD2, or PD4 on the REV01 board |
| UsbPins.WrPin | platform/avr-atmega128rfa1/usb.h:27-40 | WR is PD3, or PG1 on the REV01 board |
| UsbPins.DataLineOf | platform/avr-atmega128rfa1/usb.h:49-95 | `USB_Dk_BIT` is k for each data line |
| UsbPins.DataLines | platform/avr-atmega128rfa1/usb.h:49-95 | eight lines, D0 first, entry k being line Dk |
| UsbPins.DataPinsAre | platform/avr-atmega128rfa1/usb.h:50-94 | a pin is a data pin exactly when it is one of PB0, PF2, PD5, PG2, PE6, PB4, PE7, PB6 |
| UsbPins.DataLinesCarryByte | platform/avr-atmega128rfa1/usb.h:49-95 | the data lines have distinct pins and distinct bits and cover all eight bits |
| UsbPins.ControlLinesOffBus | platform/avr-atmega128rfa1/usb.h:12-46 | RXF, TXE, RD and WR are on no data pin in either wiring and are four distinct pins |
| UsbPins.DataLineOnBus | platform/avr-atmega128rfa1/usb.h:12-95 | data line Dk is entry k of the table, is on the bus and is not RXF, TXE, RD or WR |
| UsbDeRfNode.InitDdr | platform/avr-atmega128rfa1/usb-de-rfnode.c:40-44 | the DDR after `usb_io_init`: TXE and RXF made inputs; stated by `InitConfiguresStatusLines` and `InitIdempotent` |
| UsbDeRfNode.InitPort | platform/avr-atmega128rfa1/usb-de-rfnode.c:40-44 | the PORT after `usb_io_init`: TXE and RXF pulled up; stated by `InitConfiguresStatusLines` and `InitIdempotent` |
| UsbDeRfNode.InitConfiguresStatusLines | platform/avr-atmega128rfa1/usb-de-rfnode.c:40-44 | `usb_io_init` makes TXE and RXF inputs with pull-ups and leaves every other DDR and PORT bit unchanged |
| UsbDeRfNode.InitIdempotent | platform/avr-atmega128rfa1/usb-de-rfnode.c:40-44 | calling `usb_io_init` twice leaves the registers of calling it once |
| UsbDeRfNode.UsbIoInit | platform/avr-atmega128rfa1/usb-de-rfnode.c:35-49 | the four writes in order; PIN is untouched |
| UsbDeRfNode.UsbKeypressed | platform/avr-atmega128rfa1/usb-de-rfnode.c:59-67 | returns 1 exactly when RXF reads low and 0 exactly when it reads high; changes no register |
| UsbDeRfNode.DirectionStepsAreSetDirections | platform/avr-atmega128rfa1/usb-de-rfnode.c:168-175 | the eight unrolled direction writes are the table-driven `SetDirections` over D0..D7 |
| UsbDeRfNode.LevelStepsAreDrive | platform/avr-atmega128rfa1/usb-de-rfnode.c:252-259 | the eight unrolled level writes are the table-driven `Drive` over D0..D7 |
| UsbDeRfNode.SampleStepsAreDecode | platform/avr-atmega128rfa1/usb-de-rfnode.c:192-199 | the eight unrolled sampling statements from `data = 0` give `Decode`, the table-driven `Sample` over D0..D7 |
| UsbDeRfNode.SetDataDirections | platform/avr-atmega128rfa1/usb-de-rfnode.c:262-269 | the DDR after the eight writes is `SetDirections` over the data lines; PORT and PIN are untouched; the eight writes are traced D0 first |
| UsbDeRfNode.DriveDataLevels | platform/avr-atmega128rfa1/usb-de-rfnode.c:252-259 | the PORT after the eight writes is `Drive` of the byte; DDR and PIN are untouched; the eight writes are traced D0 first |
| UsbDeRfNode.Decode | platform/avr-atmega128rfa1/usb-de-rfnode.c:192-199 | the byte the eight sampling statements assemble from the PIN levels, from `data = 0`; stated by `DecodeBit` and `Loopback` |
| UsbDeRfNode.ReadDdr | platform/avr-atmega128rfa1/usb-de-rfnode.c:168-186 | the DDR after `read_usb_byte`; stated by `ReadLeavesBusIdle` |
| UsbDeRfNode.ReadPort | platform/avr-atmega128rfa1/usb-de-rfnode.c:181-202 | the PORT after `read_usb_byte`; stated by `ReadLeavesBusIdle` |
| UsbDeRfNode.DecodeBit | platform/avr-atmega128rfa1/usb-de-rfnode.c:192-199 | bit k of the byte read is the PIN level of Dk |
| UsbDeRfNode.ReadTraceAccesses | platform/avr-atmega128rfa1/usb-de-rfnode.c:163-204 | `read_usb_byte` appends exactly its twenty-one accesses, in program order: eight direction writes, four strobe writes, eight data-line reads, RD back high |
| UsbDeRfNode.ReadLeavesBusIdle | platform/avr-atmega128rfa1/usb-de-rfnode.c:163-204 | afterwards every data line is an input, RD and WR are outputs driven high, every other DDR bit is as before, and every PORT bit other than RD's and WR's, the data lines' included, is as before |
| UsbDeRfNode.ReadStrobeOrder | platform/avr-atmega128rfa1/usb-de-rfnode.c:168-202 | all data-direction writes come first, RD goes low only after WR was driven high, no data line is read before RD goes low, and the last access drives RD high |
| UsbDeRfNode.ReadSamplesWhileRdLow | platform/avr-atmega128rfa1/usb-de-rfnode.c:185-202 | every data-line read lies strictly between RD going low (access 10) and RD going high (access 20, the last) with no write of RD's PORT bit in between, and access 12 + k reads line Dk |
| UsbDeRfNode.SampleLine | platform/avr-atmega128rfa1/usb-de-rfnode.c:192-199 | one sampling statement: the accumulator's bit k becomes Dk's PIN level, the other bits stay, no register changes and one read of Dk is traced |
| UsbDeRfNode.SampleDataLines | platform/avr-atmega128rfa1/usb-de-rfnode.c:192-199 | the eight sampling statements return `Decode` of the PIN levels, change no register and trace the eight reads D0 first |
| UsbDeRfNode.ReadUsbByte | platform/avr-atmega128rfa1/usb-de-rfnode.c:163-204 | the chip presents its levels during the delay after RD goes low; the result is `Decode` of those levels (bit k is Dk's presented level); DDR and PORT become `ReadDdr` and `ReadPort`; the trace grows by the read accesses |
| UsbDeRfNode.UsbGetcStd22 | platform/avr-atmega128rfa1/usb-de-rfnode.c:82-93 | returns at the first poll that sees RXF low, every earlier poll having seen it high, with the byte `read_usb_byte` then reads from the levels the chip presents, in 0..255 |
| UsbDeRfNode.UsbPutcStd22 | platform/avr-atmega128rfa1/usb-de-rfnode.c:109-122 | returns c unchanged and touches no register |
| UsbDeRfNode.WriteTraceAccesses | platform/avr-atmega128rfa1/usb-de-rfnode.c:249-283 | `write_usb_byte` appends exactly its twenty-one writes, in program order |
| UsbDeRfNode.WriteDrivesByte | platform/avr-atmega128rfa1/usb-de-rfnode.c:249-283 | afterwards Dk's PORT bit is bit k of v, every data line is an output, RD and WR are outputs driven high, and every other DDR and PORT bit is as before |
| UsbDeRfNode.WriteStrobeOrder | platform/avr-atmega128rfa1/usb-de-rfnode.c:252-283 | all data levels are written before any data direction, all data set-up before any strobe, RD is driven high (write 16) before WR is driven low (write 18), WR's PORT bit is not written again until the last write (20) drives it high, and there are twenty-one writes |
| UsbDeRfNode.WriteDdr | platform/avr-atmega128rfa1/usb-de-rfnode.c:262-280 | the DDR after `write_usb_byte`; stated by `WriteDrivesByte` |
| UsbDeRfNode.WritePort | platform/avr-atmega128rfa1/usb-de-rfnode.c:252-283 | the PORT after `write_usb_byte(v)`; stated by `WriteDrivesByte` and `Loopback` |
| UsbDeRfNode.WriteUsbByte | platform/avr-atmega128rfa1/usb-de-rfnode.c:249-283 | DDR and PORT become `WriteDdr` and `WritePort` of the byte; PIN is untouched; the trace grows by `WriteWrites(w, v)` |
| UsbDeRfNode.Loopback | platform/avr-atmega128rfa1/usb-de-rfnode.c:163-283 | if every data line's PIN level is the PORT bit `write_usb_byte(v)` left, `read_usb_byte` returns v |
| ContentFormat.Negotiate | project/er-rest-example/resources/res-system-uptime.c:96-112 | an unset Accept or text/plain gives the text representation, application/json the JSON one, anything else Not Acceptable; max-age is 60 (the same choice is made at res-deRFNode-battery.c:64-80 and res-atmega128rfa1-temp.c:58-74) |
| Observe.ChangedEnough | project/er-rest-example/resources/res-deRFNode-battery.c:112 | the `abs(value - value_old) >= CHANGE` test; used by `Step` |
| Observe.NotifyDue | project/er-rest-example/resources/res-deRFNode-battery.c:112-113 | the notify test on the incremented counter; `Step` notifies exactly when it holds |
| Observe.Step | project/er-rest-example/resources/res-deRFNode-battery.c:110-118 | a call notifies exactly when the notify test holds for the incremented counter (with CHANGE 0: when it reaches INTERVAL_MIN); on notify the counter restarts at 0 and the old value becomes the reading, otherwise the counter grows by one and the old value stays; a counter below INTERVAL_MAX stays below it |
| Observe.Run | project/er-rest-example/resources/res-deRFNode-battery.c:110-118 | one notify flag per periodic call |
| Observe.RunFromRestart | project/er-rest-example/resources/res-atmega128rfa1-temp.c:83-88 | from a counter c below INTERVAL_MIN, call i notifies exactly when c + 1 + i is a multiple of INTERVAL_MIN |
| Observe.NotifiesEveryIntervalMin | project/er-rest-example/resources/res-atmega128rfa1-temp.c:32-36 | from the initial counter the first call notifies and then every fifth: call i notifies exactly when i is a multiple of 5 |
| Observe.OldValueIsLastNotified | project/er-rest-example/resources/res-atmega128rfa1-temp.c:86-88 | the old value is the reading of the last notifying call, or the initial old value if no call notified |
| FixedPoint.Hundredths | project/er-rest-example/resources/res-atmega128rfa1-temp.c:60 | the printed fields `x/100` and `x%100` recombine to x, the fraction is below 100 in magnitude, and both fields take the sign of x |
| FixedPoint.HundredthsUnique | project/er-rest-example/resources/res-atmega128rfa1-temp.c:60 | no other pair with those properties recombines to x |
| DeRfNodeBattery.AdcInV | project/er-rest-example/resources/res-deRFNode-battery.c:56 | `adc_in_v`, the ADC result in hundredths of a volt at the 1.6 V reference, in 32-bit arithmetic; stated by `VoltageInRange` and `VoltageMonotone` |
| DeRfNodeBattery.Voltage | project/er-rest-example/resources/res-deRFNode-battery.c:58 | `voltage`, the divider input in hundredths of a volt, stored in a 16-bit `unsigned int`; stated by `VoltageInRange` and `VoltageMonotone` |
| DeRfNodeBattery.VoltageInRange | project/er-rest-example/resources/res-deRFNode-battery.c:54-58 | for a 10-bit ADC result nothing wraps: `adc_in_v` is adcVal*160/1023, at most 160, and `voltage` is adc_in_v*1040/220, at most 756 |
| DeRfNodeBattery.VoltageMonotone | project/er-rest-example/resources/res-deRFNode-battery.c:54-58 | a higher ADC result never gives a lower `adc_in_v` or `voltage` |
| DeRfNodeBattery.BatteryGet | project/er-rest-example/resources/res-deRFNode-battery.c:54-80 | the printed volts and hundredths recombine to the voltage, the hundredths are in 0..99, and for a 10-bit result the volts are at most 7 |
| DeRfNodeBattery.BatteryResource.constructor | project/er-rest-example/resources/res-deRFNode-battery.c:35-36 | the counter starts at INTERVAL_MIN and `voltage_old` at INT_MIN |
| DeRfNodeBattery.BatteryResource.PeriodicHandler | project/er-rest-example/resources/res-deRFNode-battery.c:103-118 | one `Step` on the voltage converted to `int`, with its notify flag; the counter stays below INTERVAL_MAX |
| DeRfNodeBattery.StoredVoltageIsPrinted | project/er-rest-example/resources/res-deRFNode-battery.c:103-115 | for a 10-bit result the voltage stored in `voltage_old` is the voltage the GET handler prints from the same reading |
| CpuTemperature.TemperatureGet | project/er-rest-example/resources/res-atmega128rfa1-temp.c:53-74 | the printed fields recombine to the reading, with a fraction below 100 in magnitude of the reading's sign |
| CpuTemperature.TemperatureResource.constructor | project/er-rest-example/resources/res-atmega128rfa1-temp.c:36-37 | the counter starts at INTERVAL_MIN and `temperature_old` at 0 |
| CpuTemperature.TemperatureResource.PeriodicHandler | project/er-rest-example/resources/res-atmega128rfa1-temp.c:81-91 | one `Step` on the reading, with its notify flag; the counter stays below INTERVAL_MAX |
| CpuTemperature.NegativeReadingFields | project/er-rest-example/resources/res-atmega128rfa1-temp.c:60 | for -0.99 to -0.01 degrees the fields are 0 and the negative reading; every negative reading that is not whole degrees has a negative fraction field |
| CpuTemperature.DecimalReading | project/er-rest-example/resources/res-atmega128rfa1-temp.c:60 | the intended printed form: a sign shown exactly for negative readings, and digits below 100 that recombine to the reading |
| CpuTemperature.FieldsMatchDecimalExactlyWhenNonNegative | project/er-rest-example/resources/res-atmega128rfa1-temp.c:60-65 | the printed fields are the decimal form for non-negative readings, and never for negative readings that are not whole degrees |
| SystemUptime.Accumulate | project/er-rest-example/resources/res-system-uptime.c:54-62 | the 16-bit accumulated ticks divided by the rate go into the 32-bit uptime, the remainder below the rate stays pending, and `rtimer_last` becomes the reading |
| SystemUptime.UptimeProcess.constructor | project/er-rest-example/resources/res-system-uptime.c:29-43 | `uptime_seconds`, `rtimer_delta` and `rtimer_last` start at 0 |
| SystemUptime.UptimeProcess.Iterate | project/er-rest-example/resources/res-system-uptime.c:46-62 | one loop pass, with the code's increment rule, updates the three statics as `Iteration` says |
| SystemUptime.TickIncrementAsWritten | project/er-rest-example/resources/res-system-uptime.c:49-52 | the code's tick increment; compared with the elapsed ticks by `TickIncrementAsWrittenVersusElapsed` |
| SystemUptime.Iteration | project/er-rest-example/resources/res-system-uptime.c:46-62 | one loop pass as written: `Accumulate` with the code's increment; stated by `IterationAsWrittenInventsTicks` and `IterationAsWrittenLosesTick` |
| SystemUptime.IntendedIteration | project/er-rest-example/resources/res-system-uptime.c:49-62 | one loop pass with the elapsed-tick increment; stated by `IntendedIterationKeepsTime` |
| SystemUptime.ElapsedTicks | project/er-rest-example/resources/res-system-uptime.c:49-52 | the ticks the 16-bit timer took from `last` to `now`: added to `last` modulo 2^16 they give `now` |
| SystemUptime.ElapsedTicksUnique | project/er-rest-example/resources/res-system-uptime.c:49-52 | no other 16-bit count takes `last` to `now` |
| SystemUptime.TickIncrementAsWrittenVersusElapsed | project/er-rest-example/resources/res-system-uptime.c:49-52 | the code's increment equals the elapsed ticks when the timer moved forward and is one short of them (modulo 2^16) otherwise |
| SystemUptime.SameReadingAddsSeconds | project/er-rest-example/resources/res-system-uptime.c:49-58 | two readings of 100 in a row take the statics from (0, 0, 100) to 8 seconds with 3039 ticks pending, at 7812 ticks per second |
| SystemUptime.AccumulateKeepsTime | project/er-rest-example/resources/res-system-uptime.c:54-58 | when neither counter wraps, a pass turns the added ticks into seconds and pending ticks without losing any |
| SystemUptime.IntendedIterationKeepsTime | project/er-rest-example/resources/res-system-uptime.c:49-58 | with the elapsed-tick increment, uptime in ticks plus pending ticks grows by exactly the ticks the timer took |
| SystemUptime.IterationAsWrittenInventsTicks | project/er-rest-example/resources/res-system-uptime.c:49-58 | with the code's increment, from no pending ticks, a pass in which no tick passed adds 65535 ticks to uptime plus pending ticks (while the uptime does not wrap) |
| SystemUptime.IterationAsWrittenLosesTick | project/er-rest-example/resources/res-system-uptime.c:49-58 | with the code's increment and ticks pending below one second, a pass in which no tick passed takes one pending tick away and adds no second |
| SystemUptime.SubIntProduct | project/er-rest-example/resources/res-system-uptime.c:91-94 | `us -= p` for a 16-bit `int` product p: p wraps to 16 bits, widens to 32 bits and is subtracted modulo 2^32 |
| SystemUptime.SplitAsWritten | project/er-rest-example/resources/res-system-uptime.c:85-94 | the code's split of the uptime into days, hours, minutes and seconds; stated by `SplitAsWrittenBeforeTenHours` and `SplitAsWrittenAtTenHours` |
| SystemUptime.Split | project/er-rest-example/resources/res-system-uptime.c:85-94 | the intended split: days, hours, minutes and seconds add up to the uptime, with hours below 24 and minutes and seconds below 60 |
| SystemUptime.SplitUnique | project/er-rest-example/resources/res-system-uptime.c:85-94 | no other split in range adds up to the same uptime |
| SystemUptime.SplitAsWrittenBeforeTenHours | project/er-rest-example/resources/res-system-uptime.c:87-94 | during the first ten hours of every day the code's split is the intended one |
| SystemUptime.SplitAsWrittenAtTenHours | project/er-rest-example/resources/res-system-uptime.c:90-94 | at 36000 s the code's split is 0 d 10 h 68 m 61456 s, the intended one 0 d 10 h 0 m 0 s |
| SystemUptime.UptimeGet | project/er-rest-example/resources/res-system-uptime.c:82-112 | both representations carry the code's split; during the first ten hours of a day it adds up to the uptime, with fields in range; the text also carries the uptime and `clock_seconds()` |

## Left out

- The Sensor Terminal Board variant of `read_usb_byte` and `write_usb_byte`: it is not compiled (DE_PLATFORM is DE_RF_NODE), and its `USB_DATA_*`, `USB_DECODE_*` and `USB_CS*` macros are not defined in usb.h.
- The `_delay_us` settle times: there is no timing model. Only the order of register accesses is kept, in the trace. The 5 µs delay in `read_usb_byte` is where the chip presents its levels, a parameter of `ReadUsbByte`.
- UsbDeRfNode.UsbGetcStd22: the busy-wait cannot be shown to end. The PIN samples seen by the polls are a parameter, and the method requires that one of them shows RXF low. The levels the chip then presents on the data lines are a second parameter; nothing ties them to RXF.
- The `PRINTF` debug output of the uptime loop (`res-system-uptime.c:59`, compiled in with DEBUG 1): it goes to `stdout`, that is to `usb_putc_std22`, which returns without touching any register, so it changes no modelled state.
- `FDEV_SETUP_STREAM`, the `stdout` registration and the `pUSB` pointer: these are libc stdio plumbing.
- usb.h declares `usb_keypressed22`, while the driver defines `usb_keypressed`. The model follows the definition.
- `readADC`, `readInternalTemp`, `RTIMER_NOW()` and `clock_seconds()` are foreign calls. Their results are parameters.
- The REST and CoAP framework calls, the resource registration and the protothread macros are external. A notification is a boolean result, and a response is a negotiated content format plus the printed integers.
- The exact `snprintf` output (field widths, `%02d`, the unit strings, the JSON key `temperature` that the battery handler uses) is not modelled. Only the printed integers are.
- Observe.ChangedEnough: `abs` is taken on mathematical integers. The 16-bit wrap of `voltage - voltage_old` and `temperature - temperature_old` before `abs` is not modelled. With CHANGE 0 the test then always holds.
- Observe.Step: `interval_counter` is an unbounded integer, not an `int32_t`. The counter never leaves 0..INTERVAL_MAX, so it cannot wrap.
- The other resource files (`res-deRFNode-temperature.c`, `res-deRFNode-acceleration.c`, `res-rf230-rssi.c`) are not part of this model.
- The overflow of `uptime_seconds` after 2^32 seconds is modelled as the 32-bit wrap. SystemUptime.IntendedIterationKeepsTime assumes that neither counter wraps.

## Findings

| source | as written | input that shows it | evidently intended | confidence | as-written member | corrected member |
|---|---|---|---|---|---|---|
| project/er-rest-example/resources/res-system-uptime.c:49-52 | a reading not above the last adds `USHRT_MAX - last + now`, so every timer wrap loses a tick, and a repeated reading adds 65535 ticks from no pending ticks and otherwise loses one | two passes reading 100 with nothing pending: 8 seconds are added at 7812 ticks per second | add the ticks the 16-bit timer took, `(rtimer_clock_t)(now - last)` | high; not executed | SystemUptime.TickIncrementAsWrittenVersusElapsed, SystemUptime.SameReadingAddsSeconds, SystemUptime.IterationAsWrittenInventsTicks, SystemUptime.IterationAsWrittenLosesTick | SystemUptime.ElapsedTicks, SystemUptime.IntendedIterationKeepsTime |
| project/er-rest-example/resources/res-system-uptime.c:90-94 | `hours * (60*60)` is a 16-bit `int` product, and it overflows from 10 hours into a day on | uptime 36000 s prints 0 d 10 h 68 m 61456 s | subtract the hours in `unsigned long` arithmetic, as the days are | medium (signed overflow is undefined; two's-complement wrap assumed); not executed | SystemUptime.SplitAsWrittenAtTenHours | SystemUptime.Split, SystemUptime.SplitUnique |
| project/er-rest-example/resources/res-atmega128rfa1-temp.c:60 | `"%3d.%02d"` of `t/100` and `t%100` prints a negative fraction for negative readings | reading -5 (-0.05 °C) prints as `0.-5`, and -150 as `-1.-50` | print the sign, then `abs(t)/100` and `abs(t)%100` | high; not executed | CpuTemperature.NegativeReadingFields, CpuTemperature.FieldsMatchDecimalExactlyWhenNonNegative | CpuTemperature.DecimalReading |
