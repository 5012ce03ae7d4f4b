/** The port 1 bits of the three-pin test socket and the operations the
    firmware performs on them. Probe 1 is driven through AR and sensed on A,
    probe 2 through BR and B, probe 3 through C (`_C` in the firmware) and CR.

    A port register is modelled as the set of its bit positions that are 1:
    `P1OUT |= m` adds the bits of `m`, `P1OUT &= ~m` removes them, and
    `(P1IN & m) == 0` / `(P1IN & m) == m` test a one-bit mask `m`. */
module Pins {
  /** A bit position of port 1, BIT0 to BIT7. */
  type Bit = i: int | 0 <= i < 8

  const A: Bit := 0   // BIT0, sense line of probe 1
  const B: Bit := 1   // BIT1, sense line of probe 2
  const C: Bit := 2   // BIT2, drive line of probe 3
  const AR: Bit := 3  // BIT3, drive line of probe 1
  const BR: Bit := 4  // BIT4, drive line of probe 2
  const CR: Bit := 5  // BIT5, sense line of probe 3

  /** A port register: the bits that read or drive 1. */
  type Port = set<Bit>

  /** The three output bits of P1OUT that the engine drives. */
  const DriveLines: set<Bit> := {AR, BR, C}

  /** `clear_pins`: the three drive lines go low, every other bit of P1OUT is kept. */
  function Quiesce(out: Port): (r: Port)
    ensures r !! DriveLines
    ensures forall b :: b !in DriveLines ==> (b in r <==> b in out)
  {
    out - {AR, BR, C}
  }

  /** A drive pattern: the bits set with `|=` and the bits cleared with `&= ~`. */
  datatype Drive = Drive(high: set<Bit>, low: set<Bit>)

  /** P1OUT after a drive pattern: the low bits end clear, the high bits not
      also named low end set, and every bit named in neither is kept. The
      firmware never names one bit in both, so the order of its statements
      within one pattern does not matter. */
  function Apply(d: Drive, out: Port): (r: Port)
    ensures r !! d.low
    ensures d.high - d.low <= r
    ensures forall b :: b !in d.high + d.low ==> (b in r <==> b in out)
  {
    out + d.high - d.low
  }

  /** Does a pattern stay within the drive lines? */
  predicate Within(d: Drive)
  {
    d.high + d.low <= DriveLines
  }

  /** The level test the firmware applies to a P1IN sample: LOW is
      `(P1IN & m) == 0`, HIGH is `(P1IN & m) == m`, for the one-bit mask of `line`. */
  predicate Shows(v: Port, line: Bit, high: bool)
  {
    (line in v) == high
  }

  /** A pattern within the drive lines never changes any other bit. */
  lemma WithinKeepsOthers(d: Drive, out: Port)
    requires Within(d)
    ensures Apply(d, out) - DriveLines == out - DriveLines
  {
    var r := Apply(d, out);
    forall b | b in r - DriveLines
      ensures b in out - DriveLines
    {
    }
    forall b | b in out - DriveLines
      ensures b in r - DriveLines
    {
    }
  }
}
