/** A byte carried over eight independently wired lines: bit `line.bit` of the
    byte travels on `line.pin`, wherever that pin is. Writing sets each line's
    PORT bit from its data bit; reading assembles the byte from the PIN bits.
    The round trip holds for every table of distinct pins whose distinct bits
    cover all eight bits of the byte. */
module LineCodec {
  import opened AvrIo

  /** One data line: its data bit (`USB_Dk_BIT`) and its physical pin. */
  datatype DataLine = DataLine(bit: BitIndex, pin: Pin)

  function PinsOf(lines: seq<DataLine>): (r: set<Pin>)
  {
    set i | 0 <= i < |lines| :: lines[i].pin
  }

  function BitsOf(lines: seq<DataLine>): (r: set<BitIndex>)
  {
    set i | 0 <= i < |lines| :: lines[i].bit
  }

  predicate DistinctPins(lines: seq<DataLine>)
  {
    forall i, j :: 0 <= i < j < |lines| ==> lines[i].pin != lines[j].pin
  }

  predicate DistinctBits(lines: seq<DataLine>)
  {
    forall i, j :: 0 <= i < j < |lines| ==> lines[i].bit != lines[j].bit
  }

  /** Every bit of the byte has a line. */
  predicate CoversByte(lines: seq<DataLine>)
  {
    forall j: BitIndex :: j in BitsOf(lines)
  }

  /** A wiring that can carry a byte: one line per bit, no pin shared. */
  predicate ByteWiring(lines: seq<DataLine>)
  {
    DistinctPins(lines) && DistinctBits(lines) && CoversByte(lines)
  }

  /** Sets the direction bit of every line to `output`, in table order. */
  function SetDirections(lines: seq<DataLine>, output: bool, ddr: Bank): (r: Bank)
    ensures forall i :: 0 <= i < |lines| ==> r.Level(lines[i].pin) == output
    ensures forall q: Pin :: q !in PinsOf(lines) ==> r.Level(q) == ddr.Level(q)
    decreases |lines|
  {
    if lines == [] then ddr
    else
      var r := SetDirections(lines[1..], output, ddr.With(lines[0].pin, output));
      assert forall i :: 1 <= i < |lines| ==> lines[i] == lines[1..][i - 1];
      assert PinsOf(lines) == PinsOf(lines[1..]) + {lines[0].pin};
      r
  }

  /** Sets the PORT bit of each line from bit `line.bit` of v, in table order. */
  function Drive(lines: seq<DataLine>, v: bv8, port: Bank): (r: Bank)
    ensures forall q: Pin :: q !in PinsOf(lines) ==> r.Level(q) == port.Level(q)
    decreases |lines|
  {
    if lines == [] then port
    else
      var r := Drive(lines[1..], v, port.With(lines[0].pin, BitOf(v, lines[0].bit)));
      assert PinsOf(lines) == PinsOf(lines[1..]) + {lines[0].pin};
      r
  }

  /** One sampling step: bit `line.bit` of the accumulator takes the level of
      the line's PIN bit. */
  function SampleStep(acc: bv8, line: DataLine, pins: Bank): (r: bv8)
    ensures BitOf(r, line.bit) == pins.Level(line.pin)
    ensures forall j: BitIndex :: j != line.bit ==> BitOf(r, j) == BitOf(acc, j)
  {
    WithBit(acc, line.bit, pins.Level(line.pin))
  }

  /** Samples every line in table order into the accumulator. */
  function Sample(lines: seq<DataLine>, pins: Bank, acc: bv8): (r: bv8)
    ensures forall j: BitIndex :: j !in BitsOf(lines) ==> BitOf(r, j) == BitOf(acc, j)
    decreases |lines|
  {
    if lines == [] then acc
    else
      var r := Sample(lines[1..], pins, SampleStep(acc, lines[0], pins));
      assert BitsOf(lines) == BitsOf(lines[1..]) + {lines[0].bit};
      r
  }

  /** Sampling from entry k on is sampling entry k, then the rest. */
  lemma SampleFrom(lines: seq<DataLine>, pins: Bank, acc: bv8, k: nat)
    requires k < |lines|
    ensures Sample(lines[k..], pins, acc) == Sample(lines[k + 1..], pins, SampleStep(acc, lines[k], pins))
  {
    assert lines[k..][1..] == lines[k + 1..];
  }

  /** After driving, each line's PORT bit is its data bit of v. */
  lemma {:induction false} DriveLevel(lines: seq<DataLine>, v: bv8, port: Bank, i: nat)
    requires DistinctPins(lines) && i < |lines|
    ensures Drive(lines, v, port).Level(lines[i].pin) == BitOf(v, lines[i].bit)
    decreases |lines|
  {
    var next := port.With(lines[0].pin, BitOf(v, lines[0].bit));
    assert DistinctPins(lines[1..]) by {
      forall a, b | 0 <= a < b < |lines| - 1 ensures lines[1..][a].pin != lines[1..][b].pin {
        assert lines[1..][a] == lines[a + 1] && lines[1..][b] == lines[b + 1];
      }
    }
    if i == 0 {
      assert lines[0].pin !in PinsOf(lines[1..]) by {
        forall a | 0 <= a < |lines| - 1 ensures lines[1..][a].pin != lines[0].pin {
          assert lines[1..][a] == lines[a + 1];
        }
      }
      assert Drive(lines, v, port) == Drive(lines[1..], v, next);
    } else {
      DriveLevel(lines[1..], v, next, i - 1);
      assert lines[1..][i - 1] == lines[i];
    }
  }

  /** After sampling, bit `line.bit` of the result is that line's PIN bit. */
  lemma {:induction false} SampleBit(lines: seq<DataLine>, pins: Bank, acc: bv8, i: nat)
    requires DistinctBits(lines) && i < |lines|
    ensures BitOf(Sample(lines, pins, acc), lines[i].bit) == pins.Level(lines[i].pin)
    decreases |lines|
  {
    var next := SampleStep(acc, lines[0], pins);
    assert DistinctBits(lines[1..]) by {
      forall a, b | 0 <= a < b < |lines| - 1 ensures lines[1..][a].bit != lines[1..][b].bit {
        assert lines[1..][a] == lines[a + 1] && lines[1..][b] == lines[b + 1];
      }
    }
    if i == 0 {
      assert lines[0].bit !in BitsOf(lines[1..]) by {
        forall a | 0 <= a < |lines| - 1 ensures lines[1..][a].bit != lines[0].bit {
          assert lines[1..][a] == lines[a + 1];
        }
      }
      assert Sample(lines, pins, acc) == Sample(lines[1..], pins, next);
    } else {
      SampleBit(lines[1..], pins, next, i - 1);
      assert lines[1..][i - 1] == lines[i];
    }
  }

  /** Reading back what was driven gives the byte that was driven: if every
      data line's PIN bit shows the PORT bit left by `Drive(lines, v, port)`,
      sampling yields v, whatever the accumulator started as. */
  lemma RoundTrip(lines: seq<DataLine>, v: bv8, port: Bank, pins: Bank, acc: bv8)
    requires ByteWiring(lines)
    requires forall i :: 0 <= i < |lines| ==>
      pins.Level(lines[i].pin) == Drive(lines, v, port).Level(lines[i].pin)
    ensures Sample(lines, pins, acc) == v
  {
    var r := Sample(lines, pins, acc);
    forall j: BitIndex
      ensures BitOf(r, j) == BitOf(v, j)
    {
      assert j in BitsOf(lines);
      var i :| 0 <= i < |lines| && lines[i].bit == j;
      SampleBit(lines, pins, acc, i);
      DriveLevel(lines, v, port, i);
    }
    BitsDetermineByte(r, v);
  }
}
