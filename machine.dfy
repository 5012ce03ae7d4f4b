/** The state the classification engine works on, and the record of what it
    asks of the display and of the delay routine. */
module Machine {
  import opened Pins

  /** The fixed texts the engine shows. Most are padded with spaces to 8
      characters, but "N-Channel" and "P-Channel" are 9 and the progress
      texts 6, so a shorter text can leave characters of a longer one on the
      display; the display's contents are not modelled. */
  datatype Message =
    | Pass1 | Pass2                // progress, on row 1
    | NChannel | Npn              // try_npn_nchannel's verdicts
    | PChannel | Pnp              // try_pnp_pchannel's verdicts
    | DiodeKind                    // try_diode's verdict
    | AnodeOnA | AnodeOnC          // try_diode's orientations, on row 1
    | Nothing                      // the default case of main's switch

  /** The characters of each message, as the firmware passes them to
      `lcd_print`. */
  function Text(m: Message): (s: string)
    ensures 6 <= |s| <= 9
  {
    match m
    case Pass1 => "PASS 1"
    case Pass2 => "PASS 2"
    case NChannel => "N-Channel"
    case Npn => "NPN     "
    case PChannel => "P-Channel"
    case Pnp => "PNP     "
    case DiodeKind => "Diode   "
    case AnodeOnA => "A=1 C=3 "
    case AnodeOnC => "C=1 A=3 "
    case Nothing => "Nothing "
  }

  /** One call to an external collaborator: `lcd_print(Text(msg), row, col)`
      or `delay_ms(ms)`. */
  datatype Event = Print(msg: Message, row: nat, col: nat) | Delay(ms: nat)

  const ChgDelay: nat := 20    // CHG_DELAY: settle time after a drive change
  const HoldDelay: nat := 500  // each of the two waits after a recognition

  /** P1IN as the firmware sees it: the value of the n-th read of the register. */
  type Input = nat -> Port

  /** P1OUT, the RECOGNIZED flag, every display and delay call made so far, and
      how many times P1IN has been sampled. */
  datatype Config = Config(out: Port, recognized: bool, log: seq<Event>, samples: nat)

  /** How many times `e` occurs in `log`. */
  function Count(log: seq<Event>, e: Event): nat
  {
    multiset(log)[e]
  }

  /** A message on the first display row, where kinds and "Nothing " go. */
  predicate IsHeadline(e: Event)
  {
    e.Print? && e.row == 0
  }

  /** How many messages `log` writes to the first display row. */
  function Headlines(log: seq<Event>): nat
  {
    if log == [] then 0 else (if IsHeadline(log[0]) then 1 else 0) + Headlines(log[1..])
  }

  lemma {:induction false} HeadlinesAppend(a: seq<Event>, b: seq<Event>)
    ensures Headlines(a + b) == Headlines(a) + Headlines(b)
  {
    if a == [] {
      assert a + b == b;
    } else {
      assert (a + b)[0] == a[0];
      assert (a + b)[1..] == a[1..] + b;
      HeadlinesAppend(a[1..], b);
    }
  }

  /** Headline counting is additive over every concatenation. */
  lemma HeadlinesAdditive()
    ensures forall a: seq<Event>, b: seq<Event> :: Headlines(a + b) == Headlines(a) + Headlines(b)
    ensures forall e: Event :: Headlines([e]) == if IsHeadline(e) then 1 else 0
  {
    forall e: Event ensures Headlines([e]) == if IsHeadline(e) then 1 else 0 {
      assert [e][1..] == [];
    }
    forall a: seq<Event>, b: seq<Event> ensures Headlines(a + b) == Headlines(a) + Headlines(b) {
      HeadlinesAppend(a, b);
    }
  }
}
