/** The pin table of the deRFnode USB FIFO interface (platform/avr-atmega128rfa1/usb.h):
    the platform selection constants, the RXF and TXE status lines, the RD and
    WR strobes in their two board revisions, and the eight data lines. Each C
    line is described by four macros (`_PIN`, `_PORT`, `_DDR`, `_PINS`); here a
    line is one `Pin`, whose three registers belong to its one port. */
module UsbPins {
  import opened AvrIo
  import opened LineCodec

  const SENS_TERM_BOARD: int := 1
  const DE_RF_NODE: int := 2
  /** The platform the driver is built for. */
  const DE_PLATFORM: int := 2

  datatype Option<T> = None | Some(value: T)

  /** The bus variants of usb-de-rfnode.c. */
  datatype Variant = SensorTerminalBoard | DeRfNode

  /** The variant that the `#if (DE_PLATFORM == ...)` tests compile in, if any. */
  function SelectVariant(platform: int): (v: Option<Variant>)
    ensures v == Some(DeRfNode) <==> platform == DE_RF_NODE
    ensures v == Some(SensorTerminalBoard) <==> platform == SENS_TERM_BOARD
    ensures v == None <==> platform != DE_RF_NODE && platform != SENS_TERM_BOARD
  {
    if platform == SENS_TERM_BOARD then Some(SensorTerminalBoard)
    else if platform == DE_RF_NODE then Some(DeRfNode)
    else None
  }

  /** The build selects the deRFnode variant. */
  lemma CompiledVariant()
    ensures SelectVariant(DE_PLATFORM) == Some(DeRfNode)
  {
  }

  /** RXF: low when the FIFO holds a received byte (PE2). */
  const RXF: Pin := Pin(PortE, 2)
  /** TXE: low when the FIFO can take a byte (PB5). */
  const TXE: Pin := Pin(PortB, 5)

  /** The two board revisions' strobe wirings. */
  datatype Wiring = Rev00Wiring | Rev01Wiring

  /** The `#if (!(defined REV01) | (defined REV00))` choice. */
  function SelectWiring(rev01Defined: bool, rev00Defined: bool): (w: Wiring)
    ensures w == Rev00Wiring <==> (!rev01Defined || rev00Defined)
    ensures w == Rev01Wiring <==> (rev01Defined && !rev00Defined)
  {
    if !rev01Defined || rev00Defined then Rev00Wiring else Rev01Wiring
  }

  /** The read strobe RD (active low): PD2, or PD4 on the REV01 board. */
  function RdPin(w: Wiring): (p: Pin)
    ensures p.port == PortD
    ensures p.bit == (if w == Rev00Wiring then 2 else 4)
  {
    match w
    case Rev00Wiring => Pin(PortD, 2)
    case Rev01Wiring => Pin(PortD, 4)
  }

  /** The write strobe WR (active low): PD3, or PG1 on the REV01 board. */
  function WrPin(w: Wiring): (p: Pin)
    ensures w == Rev00Wiring ==> p == Pin(PortD, 3)
    ensures w == Rev01Wiring ==> p == Pin(PortG, 1)
  {
    match w
    case Rev00Wiring => Pin(PortD, 3)
    case Rev01Wiring => Pin(PortG, 1)
  }

  /** Data line Dk: its `USB_Dk_BIT` and its pin. */
  function DataLineOf(k: BitIndex): (d: DataLine)
    ensures d.bit == k
  {
    match k
    case 0 => DataLine(0, Pin(PortB, 0))
    case 1 => DataLine(1, Pin(PortF, 2))
    case 2 => DataLine(2, Pin(PortD, 5))
    case 3 => DataLine(3, Pin(PortG, 2))
    case 4 => DataLine(4, Pin(PortE, 6))
    case 5 => DataLine(5, Pin(PortB, 4))
    case 6 => DataLine(6, Pin(PortE, 7))
    case 7 => DataLine(7, Pin(PortB, 6))
  }

  /** The data lines in the order the driver handles them: D0 first. */
  function DataLines(): (lines: seq<DataLine>)
    ensures |lines| == 8
    ensures forall k: BitIndex :: lines[k] == DataLineOf(k)
  {
    [DataLineOf(0), DataLineOf(1), DataLineOf(2), DataLineOf(3),
     DataLineOf(4), DataLineOf(5), DataLineOf(6), DataLineOf(7)]
  }

  /** The data pins are PB0, PF2, PD5, PG2, PE6, PB4, PE7, PB6, and a line is
      on the bus exactly when it is one of them. */
  lemma DataPinsAre(q: Pin)
    ensures q in PinsOf(DataLines()) <==>
      q in {Pin(PortB, 0), Pin(PortF, 2), Pin(PortD, 5), Pin(PortG, 2),
            Pin(PortE, 6), Pin(PortB, 4), Pin(PortE, 7), Pin(PortB, 6)}
  {
    var lines := DataLines();
    if q in PinsOf(lines) {
      var i :| 0 <= i < |lines| && lines[i].pin == q;
      assert lines[i] == DataLineOf(i);
    } else {
      assert DataLineOf(0).pin == lines[0].pin && DataLineOf(1).pin == lines[1].pin;
      assert DataLineOf(2).pin == lines[2].pin && DataLineOf(3).pin == lines[3].pin;
      assert DataLineOf(4).pin == lines[4].pin && DataLineOf(5).pin == lines[5].pin;
      assert DataLineOf(6).pin == lines[6].pin && DataLineOf(7).pin == lines[7].pin;
    }
  }

  /** The table is a wiring that carries a byte: eight distinct pins, one for
      each bit, bit 0 on D0 and bit 7 on D7. */
  lemma DataLinesCarryByte()
    ensures ByteWiring(DataLines())
  {
    var lines := DataLines();
    forall j: BitIndex
      ensures j in BitsOf(lines)
    {
      assert lines[j].bit == j;
    }
  }

  /** No data line shares a pin with RXF, TXE, RD or WR, in either wiring, and
      the four control lines are pairwise distinct. */
  lemma ControlLinesOffBus(w: Wiring)
    ensures RXF !in PinsOf(DataLines()) && TXE !in PinsOf(DataLines())
    ensures RdPin(w) !in PinsOf(DataLines()) && WrPin(w) !in PinsOf(DataLines())
    ensures |{RXF, TXE, RdPin(w), WrPin(w)}| == 4
  {
    DataPinsAre(RXF);
    DataPinsAre(TXE);
    DataPinsAre(RdPin(w));
    DataPinsAre(WrPin(w));
  }

  /** Data line Dk is entry k of the table, is on the bus, and is none of the
      control lines. */
  lemma DataLineOnBus(w: Wiring, k: BitIndex)
    ensures DataLines()[k] == DataLineOf(k) && DataLineOf(k).pin in PinsOf(DataLines())
    ensures DataLineOf(k).pin != RdPin(w) && DataLineOf(k).pin != WrPin(w)
    ensures DataLineOf(k).pin != RXF && DataLineOf(k).pin != TXE
  {
    assert DataLines()[k].pin in PinsOf(DataLines());
  }
}
