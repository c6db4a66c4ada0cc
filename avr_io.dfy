/** The AVR general-purpose I/O register bank of the ATmega128RFA1, as far as
    the USB FIFO lines use it: ports B, D, E, F and G, each with a direction
    register (DDRx), an output/pull-up register (PORTx) and an input register
    (PINx). Every driver routine is a sequence of single-bit read-modify-write
    operations on these bytes. */
module AvrIo {

  /** The ports that carry USB FIFO lines. */
  datatype Port = PortB | PortD | PortE | PortF | PortG

  type BitIndex = k: nat | k < 8

  /** One physical line: bit `bit` of port `port`. Its DDR, PORT and PIN
      registers are by construction those of the same port. */
  datatype Pin = Pin(port: Port, bit: BitIndex)

  /** avr-libc's `_BV(k)`: the byte with only bit k set. */
  function Bv(k: BitIndex): (r: bv8)
  {
    (1 as bv8) << k
  }

  /** Whether bit k of x is 1 (`x & _BV(k)` in C). */
  predicate BitOf(x: bv8, k: BitIndex)
  {
    x & Bv(k) != 0
  }

  /** `x |= _BV(k)` when `level`, `x &= ~_BV(k)` otherwise. */
  function WithBit(x: bv8, k: BitIndex, level: bool): (r: bv8)
    ensures BitOf(r, k) == level
    ensures forall j: BitIndex :: j != k ==> BitOf(r, j) == BitOf(x, j)
  {
    if level then x | Bv(k) else x & !Bv(k)
  }

  /** A byte is determined by its eight bits. */
  lemma BitsDetermineByte(x: bv8, y: bv8)
    requires forall j: BitIndex :: BitOf(x, j) == BitOf(y, j)
    ensures x == y
  {
    assert BitOf(x, 0) == BitOf(y, 0) && BitOf(x, 1) == BitOf(y, 1);
    assert BitOf(x, 2) == BitOf(y, 2) && BitOf(x, 3) == BitOf(y, 3);
    assert BitOf(x, 4) == BitOf(y, 4) && BitOf(x, 5) == BitOf(y, 5);
    assert BitOf(x, 6) == BitOf(y, 6) && BitOf(x, 7) == BitOf(y, 7);
  }

  /** One register of each port: the five DDRx, the five PORTx or the five PINx. */
  datatype Bank = Bank(b: bv8, d: bv8, e: bv8, f: bv8, g: bv8)
  {
    /** The register byte of port p. */
    function Byte(p: Port): (r: bv8)
    {
      match p
      case PortB => b
      case PortD => d
      case PortE => e
      case PortF => f
      case PortG => g
    }

    /** The bank with the register byte of port p replaced by x. */
    function WithByte(p: Port, x: bv8): (r: Bank)
      ensures r.Byte(p) == x
      ensures forall o: Port :: o != p ==> r.Byte(o) == Byte(o)
    {
      match p
      case PortB => this.(b := x)
      case PortD => this.(d := x)
      case PortE => this.(e := x)
      case PortF => this.(f := x)
      case PortG => this.(g := x)
    }

    /** The register bit of line q. */
    predicate Level(q: Pin)
    {
      BitOf(Byte(q.port), q.bit)
    }

    /** The bank after the single-bit read-modify-write of line q
        (`REG |= _BV(n)` or `REG &= ~_BV(n)`). */
    function With(q: Pin, level: bool): (r: Bank)
      ensures r.Level(q) == level
      ensures forall o: Pin :: o != q ==> r.Level(o) == Level(o)
    {
      WithByte(q.port, WithBit(Byte(q.port), q.bit, level))
    }
  }

  /** Two banks that agree on every line are equal. */
  lemma LevelsDetermineBank(x: Bank, y: Bank)
    requires forall q: Pin :: x.Level(q) == y.Level(q)
    ensures x == y
  {
    forall p: Port
      ensures x.Byte(p) == y.Byte(p)
    {
      forall j: BitIndex
        ensures BitOf(x.Byte(p), j) == BitOf(y.Byte(p), j)
      {
        assert x.Level(Pin(p, j)) == y.Level(Pin(p, j));
      }
      BitsDetermineByte(x.Byte(p), y.Byte(p));
    }
    assert x.Byte(PortB) == y.Byte(PortB) && x.Byte(PortD) == y.Byte(PortD);
    assert x.Byte(PortE) == y.Byte(PortE) && x.Byte(PortF) == y.Byte(PortF);
    assert x.Byte(PortG) == y.Byte(PortG);
  }

  /** One register access by the driver, as the trace of a routine records
      it: a DDR or PORT bit write, or a read of one line's PIN bit. */
  datatype RegAccess =
    | DdrWrite(line: Pin, output: bool)
    | PortWrite(line: Pin, high: bool)
    | PinRead(line: Pin)

  /** The register accesses of a run, the latest last. */
  datatype Trace = Start | Then(before: Trace, last: RegAccess)
  {
    /** The accesses in program order. */
    function Accesses(): (r: seq<RegAccess>)
    {
      match this
      case Start => []
      case Then(before, last) => before.Accesses() + [last]
    }
  }

  /** Recording one more access extends the program-order list by it. */
  lemma ThenExtends(t: Trace, u: Trace, ws: seq<RegAccess>, k: nat)
    requires k < |ws| && u.Accesses() == t.Accesses() + ws[..k]
    ensures Then(u, ws[k]).Accesses() == t.Accesses() + ws[..k + 1]
  {
    assert ws[..k + 1] == ws[..k] + [ws[k]];
  }

  /** The register bank of the microcontroller. `pin` is driven by the outside
      world (the FIFO chip); the driver only reads it. `trace` records every
      register write and every data-line read in program order. */
  class IoRegisters {
    var ddr: Bank
    var port: Bank
    var pin: Bank
    ghost var trace: Trace

    constructor (ddr0: Bank, port0: Bank, pin0: Bank)
      ensures ddr == ddr0 && port == port0 && pin == pin0 && trace == Start
    {
      ddr, port, pin := ddr0, port0, pin0;
      trace := Start;
    }

    /** `DDRx |= _BV(n)` (output) or `DDRx &= ~_BV(n)` (input). */
    method SetDdr(q: Pin, output: bool)
      modifies this
      ensures ddr == old(ddr).With(q, output)
      ensures port == old(port) && pin == old(pin)
      ensures trace == Then(old(trace), DdrWrite(q, output))
    {
      ddr := ddr.With(q, output);
      trace := Then(trace, DdrWrite(q, output));
    }

    /** `PORTx |= _BV(n)` (high / pull-up) or `PORTx &= ~_BV(n)` (low). */
    method SetPort(q: Pin, high: bool)
      modifies this
      ensures port == old(port).With(q, high)
      ensures ddr == old(ddr) && pin == old(pin)
      ensures trace == Then(old(trace), PortWrite(q, high))
    {
      port := port.With(q, high);
      trace := Then(trace, PortWrite(q, high));
    }

    /** `PINx & _BV(n)`: the level of line q, recorded as a read. */
    method ReadPin(q: Pin) returns (level: bool)
      modifies this
      ensures level == pin.Level(q)
      ensures ddr == old(ddr) && port == old(port) && pin == old(pin)
      ensures trace == Then(old(trace), PinRead(q))
    {
      level := pin.Level(q);
      trace := Then(trace, PinRead(q));
    }

    /** The outside world changes the levels on the input lines. */
    method Sense(levels: Bank)
      modifies this
      ensures pin == levels
      ensures ddr == old(ddr) && port == old(port) && trace == old(trace)
    {
      pin := levels;
    }
  }
}
