/** The deRFnode byte interface to the FTDI USB FIFO chip
    (platform/avr-atmega128rfa1/usb-de-rfnode.c, DE_PLATFORM == DE_RF_NODE).
    RD and WR are active-low strobes; RXF low means a byte is waiting, TXE low
    means the chip can take one. Each routine is a sequence of single-bit
    writes to the register bank, in the order the C code performs them. */
module UsbDeRfNode {
  import opened CInt
  import opened AvrIo
  import opened LineCodec
  import opened UsbPins

  // ---------------------------------------------------------------------------
  // usb_io_init

  /** DDR after `usb_io_init`: TXE and RXF are inputs. */
  function InitDdr(ddr: Bank): (r: Bank)
  {
    ddr.With(TXE, false).With(RXF, false)
  }

  /** PORT after `usb_io_init`: TXE and RXF have their pull-ups on. */
  function InitPort(port: Bank): (r: Bank)
  {
    port.With(TXE, true).With(RXF, true)
  }

  /** `usb_io_init` configures TXE and RXF as inputs with pull-up and touches
      no other register bit. */
  lemma InitConfiguresStatusLines(ddr: Bank, port: Bank, q: Pin)
    ensures !InitDdr(ddr).Level(TXE) && !InitDdr(ddr).Level(RXF)
    ensures InitPort(port).Level(TXE) && InitPort(port).Level(RXF)
    ensures q != TXE && q != RXF ==>
      InitDdr(ddr).Level(q) == ddr.Level(q) && InitPort(port).Level(q) == port.Level(q)
  {
  }

  /** Calling `usb_io_init` twice leaves the same registers as calling it once. */
  lemma InitIdempotent(ddr: Bank, port: Bank)
    ensures InitDdr(InitDdr(ddr)) == InitDdr(ddr)
    ensures InitPort(InitPort(port)) == InitPort(port)
  {
    LevelsDetermineBank(InitDdr(InitDdr(ddr)), InitDdr(ddr));
    LevelsDetermineBank(InitPort(InitPort(port)), InitPort(port));
  }

  /** The register writes of `usb_io_init`, appended to t. */
  function InitTrace(t: Trace): (r: Trace)
  {
    Then(Then(Then(Then(t, DdrWrite(TXE, false)), PortWrite(TXE, true)),
      DdrWrite(RXF, false)), PortWrite(RXF, true))
  }

  method UsbIoInit(io: IoRegisters)
    modifies io
    ensures io.ddr == InitDdr(old(io.ddr)) && io.port == InitPort(old(io.port))
    ensures io.pin == old(io.pin)
    ensures io.trace == InitTrace(old(io.trace))
  {
    io.SetDdr(TXE, false);
    io.SetPort(TXE, true);
    io.SetDdr(RXF, false);
    io.SetPort(RXF, true);
  }

  // ---------------------------------------------------------------------------
  // usb_keypressed (declared as usb_keypressed22 in usb.h)

  /** 1 when RXF reads low (a byte is waiting), 0 when it reads high. Reads
      the PIN register only. */
  method UsbKeypressed(io: IoRegisters) returns (r: nat)
    ensures r == 1 <==> !io.pin.Level(RXF)
    ensures r == 0 <==> io.pin.Level(RXF)
  {
    r := if !io.pin.Level(RXF) then 1 else 0;
  }

  // ---------------------------------------------------------------------------
  // The per-line blocks shared by read_usb_byte and write_usb_byte

  /** The eight direction writes `USB_Dk_DDR |= _BV(USB_Dk_PIN)` (output) or
      `&= ~_BV(USB_Dk_PIN)` (input), D0 first. */
  function DirectionWrites(output: bool): (r: seq<RegAccess>)
  {
    [DdrWrite(DataLineOf(0).pin, output), DdrWrite(DataLineOf(1).pin, output),
     DdrWrite(DataLineOf(2).pin, output), DdrWrite(DataLineOf(3).pin, output),
     DdrWrite(DataLineOf(4).pin, output), DdrWrite(DataLineOf(5).pin, output),
     DdrWrite(DataLineOf(6).pin, output), DdrWrite(DataLineOf(7).pin, output)]
  }

  /** The eight level writes of `write_usb_byte(v)`: line Dk from bit k of v. */
  function LevelWrites(v: bv8): (r: seq<RegAccess>)
  {
    [PortWrite(DataLineOf(0).pin, BitOf(v, 0)), PortWrite(DataLineOf(1).pin, BitOf(v, 1)),
     PortWrite(DataLineOf(2).pin, BitOf(v, 2)), PortWrite(DataLineOf(3).pin, BitOf(v, 3)),
     PortWrite(DataLineOf(4).pin, BitOf(v, 4)), PortWrite(DataLineOf(5).pin, BitOf(v, 5)),
     PortWrite(DataLineOf(6).pin, BitOf(v, 6)), PortWrite(DataLineOf(7).pin, BitOf(v, 7))]
  }

  /** The trace t followed by eight accesses. */
  function Then8(t: Trace, ws: seq<RegAccess>): (r: Trace)
    requires |ws| == 8
  {
    Then(Then(Then(Then(Then(Then(Then(Then(t,
      ws[0]), ws[1]), ws[2]), ws[3]), ws[4]), ws[5]), ws[6]), ws[7])
  }

  /** The trace t followed by five accesses. */
  function Then5(t: Trace, ws: seq<RegAccess>): (r: Trace)
    requires |ws| == 5
  {
    Then(Then(Then(Then(Then(t, ws[0]), ws[1]), ws[2]), ws[3]), ws[4])
  }

  /** The trace t followed by four accesses. */
  function Then4(t: Trace, ws: seq<RegAccess>): (r: Trace)
    requires |ws| == 4
  {
    Then(Then(Then(Then(t, ws[0]), ws[1]), ws[2]), ws[3])
  }

  lemma Then8Accesses(t: Trace, ws: seq<RegAccess>)
    requires |ws| == 8
    ensures Then8(t, ws).Accesses() == t.Accesses() + ws
  {
    var u := t;
    assert ws[..0] == [];
    ThenExtends(t, u, ws, 0); u := Then(u, ws[0]);
    ThenExtends(t, u, ws, 1); u := Then(u, ws[1]);
    ThenExtends(t, u, ws, 2); u := Then(u, ws[2]);
    ThenExtends(t, u, ws, 3); u := Then(u, ws[3]);
    ThenExtends(t, u, ws, 4); u := Then(u, ws[4]);
    ThenExtends(t, u, ws, 5); u := Then(u, ws[5]);
    ThenExtends(t, u, ws, 6); u := Then(u, ws[6]);
    ThenExtends(t, u, ws, 7); u := Then(u, ws[7]);
    assert ws[..8] == ws;
  }

  lemma Then5Accesses(t: Trace, ws: seq<RegAccess>)
    requires |ws| == 5
    ensures Then5(t, ws).Accesses() == t.Accesses() + ws
  {
    var u := t;
    assert ws[..0] == [];
    ThenExtends(t, u, ws, 0); u := Then(u, ws[0]);
    ThenExtends(t, u, ws, 1); u := Then(u, ws[1]);
    ThenExtends(t, u, ws, 2); u := Then(u, ws[2]);
    ThenExtends(t, u, ws, 3); u := Then(u, ws[3]);
    ThenExtends(t, u, ws, 4); u := Then(u, ws[4]);
    assert ws[..5] == ws;
  }

  lemma Then4Accesses(t: Trace, ws: seq<RegAccess>)
    requires |ws| == 4
    ensures Then4(t, ws).Accesses() == t.Accesses() + ws
  {
    var u := t;
    assert ws[..0] == [];
    ThenExtends(t, u, ws, 0); u := Then(u, ws[0]);
    ThenExtends(t, u, ws, 1); u := Then(u, ws[1]);
    ThenExtends(t, u, ws, 2); u := Then(u, ws[2]);
    ThenExtends(t, u, ws, 3); u := Then(u, ws[3]);
    assert ws[..4] == ws;
  }

  /** The DDR after the eight direction writes, written out line by line. */
  function DirectionSteps(ddr: Bank, output: bool): (r: Bank)
  {
    ddr.With(DataLineOf(0).pin, output).With(DataLineOf(1).pin, output)
       .With(DataLineOf(2).pin, output).With(DataLineOf(3).pin, output)
       .With(DataLineOf(4).pin, output).With(DataLineOf(5).pin, output)
       .With(DataLineOf(6).pin, output).With(DataLineOf(7).pin, output)
  }

  /** The PORT after the eight level writes of v, written out line by line. */
  function LevelSteps(port: Bank, v: bv8): (r: Bank)
  {
    port.With(DataLineOf(0).pin, BitOf(v, 0)).With(DataLineOf(1).pin, BitOf(v, 1))
        .With(DataLineOf(2).pin, BitOf(v, 2)).With(DataLineOf(3).pin, BitOf(v, 3))
        .With(DataLineOf(4).pin, BitOf(v, 4)).With(DataLineOf(5).pin, BitOf(v, 5))
        .With(DataLineOf(6).pin, BitOf(v, 6)).With(DataLineOf(7).pin, BitOf(v, 7))
  }

  /** The unrolled direction block is the table-driven one over the data lines. */
  lemma DirectionStepsAreSetDirections(ddr: Bank, output: bool)
    ensures DirectionSteps(ddr, output) == SetDirections(DataLines(), output, ddr)
  {
    var lines := DataLines();
    var r := ddr;
    assert SetDirections(lines, output, ddr) == SetDirections(lines[0..], output, r);
    r := r.With(DataLineOf(0).pin, output);
    assert SetDirections(lines, output, ddr) == SetDirections(lines[1..], output, r);
    r := r.With(DataLineOf(1).pin, output);
    assert SetDirections(lines, output, ddr) == SetDirections(lines[2..], output, r);
    r := r.With(DataLineOf(2).pin, output);
    assert SetDirections(lines, output, ddr) == SetDirections(lines[3..], output, r);
    r := r.With(DataLineOf(3).pin, output);
    assert SetDirections(lines, output, ddr) == SetDirections(lines[4..], output, r);
    r := r.With(DataLineOf(4).pin, output);
    assert SetDirections(lines, output, ddr) == SetDirections(lines[5..], output, r);
    r := r.With(DataLineOf(5).pin, output);
    assert SetDirections(lines, output, ddr) == SetDirections(lines[6..], output, r);
    r := r.With(DataLineOf(6).pin, output);
    assert SetDirections(lines, output, ddr) == SetDirections(lines[7..], output, r);
    r := r.With(DataLineOf(7).pin, output);
    assert SetDirections(lines, output, ddr) == SetDirections(lines[8..], output, r);
  }

  /** The unrolled level block is the table-driven one over the data lines. */
  lemma LevelStepsAreDrive(port: Bank, v: bv8)
    ensures LevelSteps(port, v) == Drive(DataLines(), v, port)
  {
    var lines := DataLines();
    var r := port;
    assert Drive(lines, v, port) == Drive(lines[0..], v, r);
    r := r.With(DataLineOf(0).pin, BitOf(v, 0));
    assert Drive(lines, v, port) == Drive(lines[1..], v, r);
    r := r.With(DataLineOf(1).pin, BitOf(v, 1));
    assert Drive(lines, v, port) == Drive(lines[2..], v, r);
    r := r.With(DataLineOf(2).pin, BitOf(v, 2));
    assert Drive(lines, v, port) == Drive(lines[3..], v, r);
    r := r.With(DataLineOf(3).pin, BitOf(v, 3));
    assert Drive(lines, v, port) == Drive(lines[4..], v, r);
    r := r.With(DataLineOf(4).pin, BitOf(v, 4));
    assert Drive(lines, v, port) == Drive(lines[5..], v, r);
    r := r.With(DataLineOf(5).pin, BitOf(v, 5));
    assert Drive(lines, v, port) == Drive(lines[6..], v, r);
    r := r.With(DataLineOf(6).pin, BitOf(v, 6));
    assert Drive(lines, v, port) == Drive(lines[7..], v, r);
    r := r.With(DataLineOf(7).pin, BitOf(v, 7));
    assert Drive(lines, v, port) == Drive(lines[8..], v, r);
  }

  method SetDataDirections(io: IoRegisters, output: bool)
    modifies io
    ensures io.ddr == SetDirections(DataLines(), output, old(io.ddr))
    ensures io.port == old(io.port) && io.pin == old(io.pin)
    ensures io.trace == Then8(old(io.trace), DirectionWrites(output))
  {
    DirectionStepsAreSetDirections(io.ddr, output);
    io.SetDdr(DataLineOf(0).pin, output);
    io.SetDdr(DataLineOf(1).pin, output);
    io.SetDdr(DataLineOf(2).pin, output);
    io.SetDdr(DataLineOf(3).pin, output);
    io.SetDdr(DataLineOf(4).pin, output);
    io.SetDdr(DataLineOf(5).pin, output);
    io.SetDdr(DataLineOf(6).pin, output);
    io.SetDdr(DataLineOf(7).pin, output);
  }

  method DriveDataLevels(io: IoRegisters, data: bv8)
    modifies io
    ensures io.port == Drive(DataLines(), data, old(io.port))
    ensures io.ddr == old(io.ddr) && io.pin == old(io.pin)
    ensures io.trace == Then8(old(io.trace), LevelWrites(data))
  {
    LevelStepsAreDrive(io.port, data);
    io.SetPort(DataLineOf(0).pin, BitOf(data, DataLineOf(0).bit));
    io.SetPort(DataLineOf(1).pin, BitOf(data, DataLineOf(1).bit));
    io.SetPort(DataLineOf(2).pin, BitOf(data, DataLineOf(2).bit));
    io.SetPort(DataLineOf(3).pin, BitOf(data, DataLineOf(3).bit));
    io.SetPort(DataLineOf(4).pin, BitOf(data, DataLineOf(4).bit));
    io.SetPort(DataLineOf(5).pin, BitOf(data, DataLineOf(5).bit));
    io.SetPort(DataLineOf(6).pin, BitOf(data, DataLineOf(6).bit));
    io.SetPort(DataLineOf(7).pin, BitOf(data, DataLineOf(7).bit));
  }

  // ---------------------------------------------------------------------------
  // read_usb_byte

  /** The byte assembled from the PIN bits of the data lines, starting from
      `data = 0`. */
  function Decode(pins: Bank): (r: bv8)
  {
    Sample(DataLines(), pins, 0)
  }

  /** Bit k of the byte read is the PIN bit of data line Dk. */
  lemma DecodeBit(pins: Bank, k: BitIndex)
    ensures BitOf(Decode(pins), k) == pins.Level(DataLineOf(k).pin)
  {
    DataLinesCarryByte();
    SampleBit(DataLines(), pins, 0, k);
  }

  /** DDR after `read_usb_byte`: data lines inputs, then WR and RD outputs. */
  function ReadDdr(w: Wiring, ddr: Bank): (r: Bank)
  {
    SetDirections(DataLines(), false, ddr).With(WrPin(w), true).With(RdPin(w), true)
  }

  /** PORT after `read_usb_byte`: WR forced high, RD pulsed low and back high. */
  function ReadPort(w: Wiring, port: Bank): (r: Bank)
  {
    port.With(WrPin(w), true).With(RdPin(w), false).With(RdPin(w), true)
  }

  /** The writes of `read_usb_byte` between the data directions and the
      sampling: WR driven high and made an output, then RD driven low (active)
      and made an output. */
  function ReadSetupWrites(w: Wiring): (r: seq<RegAccess>)
  {
    [PortWrite(WrPin(w), true), DdrWrite(WrPin(w), true),
     PortWrite(RdPin(w), false), DdrWrite(RdPin(w), true)]
  }

  /** The eight PIN reads of `read_usb_byte`, D0 first. */
  function SampleReads(): (r: seq<RegAccess>)
  {
    [PinRead(DataLineOf(0).pin), PinRead(DataLineOf(1).pin),
     PinRead(DataLineOf(2).pin), PinRead(DataLineOf(3).pin),
     PinRead(DataLineOf(4).pin), PinRead(DataLineOf(5).pin),
     PinRead(DataLineOf(6).pin), PinRead(DataLineOf(7).pin)]
  }

  /** The register accesses of `read_usb_byte`, in order: eight direction
      writes, the strobe set-up, eight data-line reads, RD back high. */
  function ReadAccesses(w: Wiring): (r: seq<RegAccess>)
  {
    DirectionWrites(false) + ReadSetupWrites(w) + SampleReads() + [PortWrite(RdPin(w), true)]
  }

  /** The trace after `read_usb_byte`, starting from t. */
  function ReadTrace(w: Wiring, t: Trace): (r: Trace)
  {
    Then(Then8(Then4(Then8(t, DirectionWrites(false)), ReadSetupWrites(w)), SampleReads()),
      PortWrite(RdPin(w), true))
  }

  /** `read_usb_byte` appends exactly its accesses to the trace. */
  lemma ReadTraceAccesses(w: Wiring, t: Trace)
    ensures ReadTrace(w, t).Accesses() == t.Accesses() + ReadAccesses(w)
  {
    var t1 := Then8(t, DirectionWrites(false));
    var t2 := Then4(t1, ReadSetupWrites(w));
    Then8Accesses(t, DirectionWrites(false));
    Then4Accesses(t1, ReadSetupWrites(w));
    Then8Accesses(t2, SampleReads());
  }

  /** After `read_usb_byte` the data lines are inputs, RD and WR are outputs
      at their idle high level, every other DDR bit is as before, and every
      PORT bit but RD's and WR's, the data lines' included, is as before. */
  lemma ReadLeavesBusIdle(w: Wiring, ddr: Bank, port: Bank, q: Pin)
    ensures forall k: BitIndex :: !ReadDdr(w, ddr).Level(DataLineOf(k).pin)
    ensures ReadDdr(w, ddr).Level(RdPin(w)) && ReadPort(w, port).Level(RdPin(w))
    ensures ReadDdr(w, ddr).Level(WrPin(w)) && ReadPort(w, port).Level(WrPin(w))
    ensures q !in PinsOf(DataLines()) && q != RdPin(w) && q != WrPin(w) ==>
      ReadDdr(w, ddr).Level(q) == ddr.Level(q)
    ensures forall k: BitIndex ::
      ReadPort(w, port).Level(DataLineOf(k).pin) == port.Level(DataLineOf(k).pin)
    ensures q != RdPin(w) && q != WrPin(w) ==> ReadPort(w, port).Level(q) == port.Level(q)
  {
    ReadDdrFrame(w, ddr, q);
    ReadPortStrobesHigh(w, port);
    ReadPortFrame(w, port, q);
    forall k: BitIndex
      ensures !ReadDdr(w, ddr).Level(DataLineOf(k).pin)
      ensures ReadPort(w, port).Level(DataLineOf(k).pin) == port.Level(DataLineOf(k).pin)
    {
      ReadReleasesDataLine(w, ddr, port, k);
    }
  }

  /** The DDR writes of `read_usb_byte` touch only the data lines, RD and WR. */
  lemma ReadDdrFrame(w: Wiring, ddr: Bank, q: Pin)
    ensures ReadDdr(w, ddr).Level(RdPin(w)) && ReadDdr(w, ddr).Level(WrPin(w))
    ensures q !in PinsOf(DataLines()) && q != RdPin(w) && q != WrPin(w) ==>
      ReadDdr(w, ddr).Level(q) == ddr.Level(q)
  {
    var d := SetDirections(DataLines(), false, ddr);
    assert ReadDdr(w, ddr) == d.With(WrPin(w), true).With(RdPin(w), true);
  }

  /** The PORT writes of `read_usb_byte` leave RD and WR high. */
  lemma ReadPortStrobesHigh(w: Wiring, port: Bank)
    ensures ReadPort(w, port).Level(RdPin(w)) && ReadPort(w, port).Level(WrPin(w))
  {
    assert RdPin(w) != WrPin(w);
  }

  /** The PORT writes of `read_usb_byte` touch only RD and WR. */
  lemma ReadPortFrame(w: Wiring, port: Bank, q: Pin)
    ensures q != RdPin(w) && q != WrPin(w) ==> ReadPort(w, port).Level(q) == port.Level(q)
  {
  }

  /** `read_usb_byte` makes data line Dk an input and leaves its PORT bit. */
  lemma ReadReleasesDataLine(w: Wiring, ddr: Bank, port: Bank, k: BitIndex)
    ensures !ReadDdr(w, ddr).Level(DataLineOf(k).pin)
    ensures ReadPort(w, port).Level(DataLineOf(k).pin) == port.Level(DataLineOf(k).pin)
  {
    DataLineOnBus(w, k);
  }

  /** The data lines are released before any strobe is touched, RD goes low
      only after WR has been forced high, no data line is read before RD is
      low, and the last access returns RD high. */
  lemma ReadStrobeOrder(w: Wiring, i: nat, j: nat)
    requires i < j < |ReadAccesses(w)|
    ensures ReadAccesses(w)[j].DdrWrite? && ReadAccesses(w)[j].line in PinsOf(DataLines()) ==>
      ReadAccesses(w)[i].DdrWrite? && ReadAccesses(w)[i].line in PinsOf(DataLines())
    ensures ReadAccesses(w)[j] == PortWrite(RdPin(w), false) ==>
      exists h :: 0 <= h < j && ReadAccesses(w)[h] == PortWrite(WrPin(w), true)
    ensures ReadAccesses(w)[i].PinRead? ==> ReadAccesses(w)[j] != PortWrite(RdPin(w), false)
    ensures ReadAccesses(w)[|ReadAccesses(w)| - 1] == PortWrite(RdPin(w), true)
  {
    var t := ReadAccesses(w);
    ControlLinesOffBus(w);
    forall k: BitIndex ensures DataLineOf(k).pin in PinsOf(DataLines()) {
      assert DataLineOf(k) == DataLines()[k];
    }
    if t[j] == PortWrite(RdPin(w), false) {
      assert t[8] == PortWrite(WrPin(w), true);
    }
  }

  /** Every data line is read exactly at its place, D0 first, and all eight
      reads fall between RD going low (access 10) and RD going high (the last
      access, 20) with no other write to RD's PORT bit in between. */
  lemma ReadSamplesWhileRdLow(w: Wiring, j: nat)
    requires j < |ReadAccesses(w)| && ReadAccesses(w)[j].PinRead?
    ensures |ReadAccesses(w)| == 21
    ensures ReadAccesses(w)[10] == PortWrite(RdPin(w), false)
    ensures ReadAccesses(w)[20] == PortWrite(RdPin(w), true)
    ensures 10 < j < 20
    ensures forall g :: 10 < g < 20 ==> ReadAccesses(w)[g] != PortWrite(RdPin(w), true)
    ensures forall k: BitIndex :: ReadAccesses(w)[12 + k] == PinRead(DataLineOf(k).pin)
  {
    var t := ReadAccesses(w);
    assert t[..8] == DirectionWrites(false);
    assert t[8..12] == ReadSetupWrites(w);
    assert t[12..20] == SampleReads();
  }

  /** The byte after the eight sampling statements, written out line by line. */
  function SampleSteps(pins: Bank): (r: bv8)
  {
    var d0 := SampleStep(0, DataLineOf(0), pins);
    var d1 := SampleStep(d0, DataLineOf(1), pins);
    var d2 := SampleStep(d1, DataLineOf(2), pins);
    var d3 := SampleStep(d2, DataLineOf(3), pins);
    var d4 := SampleStep(d3, DataLineOf(4), pins);
    var d5 := SampleStep(d4, DataLineOf(5), pins);
    var d6 := SampleStep(d5, DataLineOf(6), pins);
    SampleStep(d6, DataLineOf(7), pins)
  }

  /** The unrolled sampling block is the table-driven `Sample` over the data lines. */
  lemma SampleStepsAreDecode(pins: Bank)
    ensures SampleSteps(pins) == Decode(pins)
  {
    var lines := DataLines();
    var d: bv8 := 0;
    assert lines[0..] == lines;
    SampleFrom(lines, pins, d, 0); d := SampleStep(d, lines[0], pins);
    SampleFrom(lines, pins, d, 1); d := SampleStep(d, lines[1], pins);
    SampleFrom(lines, pins, d, 2); d := SampleStep(d, lines[2], pins);
    SampleFrom(lines, pins, d, 3); d := SampleStep(d, lines[3], pins);
    SampleFrom(lines, pins, d, 4); d := SampleStep(d, lines[4], pins);
    SampleFrom(lines, pins, d, 5); d := SampleStep(d, lines[5], pins);
    SampleFrom(lines, pins, d, 6); d := SampleStep(d, lines[6], pins);
    SampleFrom(lines, pins, d, 7); d := SampleStep(d, lines[7], pins);
    assert lines[8..] == [];
  }

  /** One sampling statement of `read_usb_byte`: read line Dk's PIN bit and
      set or clear bit k of the accumulator from it. */
  method SampleLine(io: IoRegisters, acc: bv8, k: BitIndex) returns (r: bv8)
    modifies io
    ensures r == SampleStep(acc, DataLineOf(k), io.pin)
    ensures io.ddr == old(io.ddr) && io.port == old(io.port) && io.pin == old(io.pin)
    ensures io.trace == Then(old(io.trace), PinRead(DataLineOf(k).pin))
  {
    var level := io.ReadPin(DataLineOf(k).pin);
    r := WithBit(acc, DataLineOf(k).bit, level);
  }

  /** The eight sampling statements of `read_usb_byte`, from `data = 0`. */
  method SampleDataLines(io: IoRegisters) returns (data: bv8)
    modifies io
    ensures data == Decode(io.pin)
    ensures io.ddr == old(io.ddr) && io.port == old(io.port) && io.pin == old(io.pin)
    ensures io.trace == Then8(old(io.trace), SampleReads())
  {
    SampleStepsAreDecode(io.pin);
    data := 0;
    data := SampleLine(io, data, 0);
    data := SampleLine(io, data, 1);
    data := SampleLine(io, data, 2);
    data := SampleLine(io, data, 3);
    data := SampleLine(io, data, 4);
    data := SampleLine(io, data, 5);
    data := SampleLine(io, data, 6);
    data := SampleLine(io, data, 7);
  }

  /** `read_usb_byte`. `presented` is the PIN levels the chip puts out while
      RD is low (it does so during the 5 µs delay); the byte read is their
      decoding. */
  method ReadUsbByte(io: IoRegisters, w: Wiring, presented: Bank) returns (data: bv8)
    modifies io
    ensures data == Decode(presented)
    ensures forall k: BitIndex :: BitOf(data, k) == presented.Level(DataLineOf(k).pin)
    ensures io.ddr == ReadDdr(w, old(io.ddr)) && io.port == ReadPort(w, old(io.port))
    ensures io.pin == presented
    ensures io.trace == ReadTrace(w, old(io.trace))
  {
    // set data directions to input
    SetDataDirections(io, false);

    // WR high, so that the latch direction is right
    io.SetPort(WrPin(w), true);
    io.SetDdr(WrPin(w), true);
    // RD active (low)
    io.SetPort(RdPin(w), false);
    io.SetDdr(RdPin(w), true);

    // the chip puts out the data during the delay
    io.Sense(presented);

    // read data: bit k from line Dk
    data := SampleDataLines(io);

    // RD inactive (high)
    io.SetPort(RdPin(w), true);

    forall k: BitIndex ensures BitOf(data, k) == presented.Level(DataLineOf(k).pin) {
      DecodeBit(presented, k);
    }
  }

  // ---------------------------------------------------------------------------
  // usb_getc_std22

  /** The blocking read. The busy-wait polls RXF; `schedule[i]` is what the
      PIN registers show at poll i (the outside world drives them), and some
      poll must see RXF low. The routine returns after the first such poll
      (`polls` is its index) with the byte `read_usb_byte` then reads, which
      is the decoding of the levels `presented` the chip puts out. */
  method UsbGetcStd22(io: IoRegisters, w: Wiring, schedule: seq<Bank>, presented: Bank)
      returns (c: int, polls: nat)
    requires exists i :: 0 <= i < |schedule| && !schedule[i].Level(RXF)
    modifies io
    ensures polls < |schedule| && !schedule[polls].Level(RXF)
    ensures forall i :: 0 <= i < polls ==> schedule[i].Level(RXF)
    ensures c == Decode(presented) as int && 0 <= c < 0x100
    ensures io.pin == presented
    ensures io.ddr == ReadDdr(w, old(io.ddr)) && io.port == ReadPort(w, old(io.port))
    ensures io.trace == ReadTrace(w, old(io.trace))
  {
    // wait until a byte has been received
    polls := 0;
    io.Sense(schedule[0]);
    while io.pin.Level(RXF)
      invariant polls < |schedule| && io.pin == schedule[polls]
      invariant forall i :: 0 <= i < polls ==> schedule[i].Level(RXF)
      invariant exists i :: polls <= i < |schedule| && !schedule[i].Level(RXF)
      invariant io.ddr == old(io.ddr) && io.port == old(io.port) && io.trace == old(io.trace)
      decreases |schedule| - polls
    {
      polls := polls + 1;
      io.Sense(schedule[polls]);
    }
    var data := ReadUsbByte(io, w, presented);
    c := data as int;
  }

  // ---------------------------------------------------------------------------
  // usb_putc_std22

  /** The TXE wait and the `write_usb_byte` call are commented out: the
      character comes back unchanged and no register is touched. */
  method UsbPutcStd22(io: IoRegisters, c: Int8) returns (r: int)
    ensures r == c
  {
    r := c;
  }

  // ---------------------------------------------------------------------------
  // write_usb_byte

  /** DDR after `write_usb_byte`: data lines outputs, then RD and WR outputs. */
  function WriteDdr(w: Wiring, ddr: Bank): (r: Bank)
  {
    SetDirections(DataLines(), true, ddr).With(RdPin(w), true).With(WrPin(w), true)
  }

  /** PORT after `write_usb_byte(v)`: the data levels from v, RD high, WR
      pulsed low and back high. */
  function WritePort(w: Wiring, v: bv8, port: Bank): (r: Bank)
  {
    Drive(DataLines(), v, port).With(RdPin(w), true).With(WrPin(w), false).With(WrPin(w), true)
  }

  /** The strobe writes of `write_usb_byte`, after the data set-up. */
  function WriteStrobeWrites(w: Wiring): (r: seq<RegAccess>)
  {
    [PortWrite(RdPin(w), true), DdrWrite(RdPin(w), true),
     PortWrite(WrPin(w), false), DdrWrite(WrPin(w), true),
     PortWrite(WrPin(w), true)]
  }

  /** The register writes of `write_usb_byte(v)`, in order. */
  function WriteWrites(w: Wiring, v: bv8): (r: seq<RegAccess>)
  {
    LevelWrites(v) + DirectionWrites(true) + WriteStrobeWrites(w)
  }

  /** The trace after `write_usb_byte(v)`, starting from t. */
  function WriteTrace(w: Wiring, v: bv8, t: Trace): (r: Trace)
  {
    Then5(Then8(Then8(t, LevelWrites(v)), DirectionWrites(true)), WriteStrobeWrites(w))
  }

  /** `write_usb_byte(v)` appends exactly its writes to the trace. */
  lemma WriteTraceAccesses(w: Wiring, v: bv8, t: Trace)
    ensures WriteTrace(w, v, t).Accesses() == t.Accesses() + WriteWrites(w, v)
  {
    var t1 := Then8(t, LevelWrites(v));
    var t2 := Then8(t1, DirectionWrites(true));
    Then8Accesses(t, LevelWrites(v));
    Then8Accesses(t1, DirectionWrites(true));
    Then5Accesses(t2, WriteStrobeWrites(w));
  }

  /** After `write_usb_byte(v)` line Dk's PORT bit is bit k of v, the data
      lines are outputs, RD and WR are outputs at their idle high level, and
      every other register bit is as before. */
  lemma WriteDrivesByte(w: Wiring, v: bv8, ddr: Bank, port: Bank, q: Pin)
    ensures forall k: BitIndex :: WritePort(w, v, port).Level(DataLineOf(k).pin) == BitOf(v, k)
    ensures forall k: BitIndex :: WriteDdr(w, ddr).Level(DataLineOf(k).pin)
    ensures WriteDdr(w, ddr).Level(RdPin(w)) && WritePort(w, v, port).Level(RdPin(w))
    ensures WriteDdr(w, ddr).Level(WrPin(w)) && WritePort(w, v, port).Level(WrPin(w))
    ensures q !in PinsOf(DataLines()) && q != RdPin(w) && q != WrPin(w) ==>
      WriteDdr(w, ddr).Level(q) == ddr.Level(q) && WritePort(w, v, port).Level(q) == port.Level(q)
  {
    DataLinesCarryByte();
    forall k: BitIndex
      ensures WritePort(w, v, port).Level(DataLineOf(k).pin) == BitOf(v, k)
      ensures WriteDdr(w, ddr).Level(DataLineOf(k).pin)
    {
      DataLineOnBus(w, k);
      DriveLevel(DataLines(), v, port, k);
    }
  }

  /** Every data level is written before any data direction, all data set-up
      comes before any strobe write, RD is made idle (write 16) before WR
      goes low (write 18), and WR stays low until the last write (20) returns
      it high. */
  lemma WriteStrobeOrder(w: Wiring, v: bv8, i: nat, j: nat)
    requires i < j < |WriteWrites(w, v)|
    ensures WriteWrites(w, v)[i].DdrWrite? && WriteWrites(w, v)[i].line in PinsOf(DataLines()) ==>
      !(WriteWrites(w, v)[j].PortWrite? && WriteWrites(w, v)[j].line in PinsOf(DataLines()))
    ensures WriteWrites(w, v)[i].line in {RdPin(w), WrPin(w)} ==>
      WriteWrites(w, v)[j].line !in PinsOf(DataLines())
    ensures WriteWrites(w, v)[j] == PortWrite(WrPin(w), false) ==>
      exists h :: 0 <= h < j && WriteWrites(w, v)[h] == PortWrite(RdPin(w), true)
    ensures WriteWrites(w, v)[|WriteWrites(w, v)| - 1] == PortWrite(WrPin(w), true)
    ensures |WriteWrites(w, v)| == 21
    ensures WriteWrites(w, v)[16] == PortWrite(RdPin(w), true)
    ensures WriteWrites(w, v)[18] == PortWrite(WrPin(w), false)
    ensures WriteWrites(w, v)[20] == PortWrite(WrPin(w), true)
    ensures forall g :: 18 < g < 20 ==>
      !(WriteWrites(w, v)[g].PortWrite? && WriteWrites(w, v)[g].line == WrPin(w))
  {
    var t := WriteWrites(w, v);
    ControlLinesOffBus(w);
    forall k: BitIndex ensures DataLineOf(k).pin in PinsOf(DataLines()) {
      assert DataLineOf(k) == DataLines()[k];
    }
    if t[j] == PortWrite(WrPin(w), false) {
      assert t[16] == PortWrite(RdPin(w), true);
    }
  }

  method WriteUsbByte(io: IoRegisters, w: Wiring, data: bv8)
    modifies io
    ensures io.ddr == WriteDdr(w, old(io.ddr)) && io.port == WritePort(w, data, old(io.port))
    ensures io.pin == old(io.pin)
    ensures io.trace == WriteTrace(w, data, old(io.trace))
  {

    // set data pins from the bits of data
    DriveDataLevels(io, data);
    // set data directions to output
    SetDataDirections(io, true);

    // RD inactive (high)
    io.SetPort(RdPin(w), true);
    io.SetDdr(RdPin(w), true);
    // WR active (low)
    io.SetPort(WrPin(w), false);
    io.SetDdr(WrPin(w), true);
    // WR inactive (high): the byte has been written
    io.SetPort(WrPin(w), true);

  }

  // ---------------------------------------------------------------------------
  // Loopback

  /** If the PIN bit of every data line shows the PORT bit that
      `write_usb_byte(v)` left on it, `read_usb_byte` returns v. */
  lemma Loopback(w: Wiring, v: bv8, port: Bank, pins: Bank)
    requires forall k: BitIndex ::
      pins.Level(DataLineOf(k).pin) == WritePort(w, v, port).Level(DataLineOf(k).pin)
    ensures Decode(pins) == v
  {
    var lines := DataLines();
    forall i | 0 <= i < |lines|
      ensures pins.Level(lines[i].pin) == Drive(lines, v, port).Level(lines[i].pin)
    {
      assert pins.Level(DataLineOf(i).pin) == WritePort(w, v, port).Level(DataLineOf(i).pin);
      StrobesKeepDataLevel(w, v, port, i);
    }
    DataLinesCarryByte();
    RoundTrip(lines, v, port, pins, 0);
  }

  /** The strobe writes after the data levels leave each data line's PORT bit. */
  lemma StrobesKeepDataLevel(w: Wiring, v: bv8, port: Bank, k: BitIndex)
    ensures WritePort(w, v, port).Level(DataLineOf(k).pin) ==
      Drive(DataLines(), v, port).Level(DataLines()[k].pin)
  {
    DataLineOnBus(w, k);
  }
}
