/** The firmware's classification engine as it is written: the global
    RECOGNIZED flag and the P1OUT register are fields, and every family test
    is the hand-unrolled sequence of bit sets, bit clears, delays, reads and
    display calls. Each method is proved to do what the table-driven
    specification in modules Families and Scheduler says. */
module Firmware {
  import opened Pins
  import opened Machine
  import opened Families
  import Scheduler

  class Tester {
    var out: Port            // P1OUT
    var recognized: bool     // RECOGNIZED
    var log: seq<Event>      // every lcd_print and delay_ms call, in order
    var samples: nat         // how many times P1IN has been read
    const p1in: Input        // what P1IN shows at each read

    /** Power-up: RECOGNIZED is FALSE, nothing shown yet. */
    constructor (initialOut: Port, p1in: Input)
      ensures State() == Config(initialOut, false, [], 0) && this.p1in == p1in
    {
      out := initialOut;
      recognized := false;
      log := [];
      samples := 0;
      this.p1in := p1in;
    }

    /** The tester's state as a specification value. */
    function State(): Config
      reads this
    {
      Config(out, recognized, log, samples)
    }

    /** One read of P1IN. */
    method ReadP1In() returns (v: Port)
      modifies this`samples
      ensures v == p1in(old(samples)) && samples == old(samples) + 1
    {
      v := p1in(samples);
      samples := samples + 1;
    }

    /** `lcd_print`, recorded. */
    method LcdPrint(msg: Message, row: nat, col: nat)
      modifies this`log
      ensures log == old(log) + [Print(msg, row, col)]
    {
      log := log + [Print(msg, row, col)];
    }

    /** `delay_ms`, recorded. */
    method DelayMs(ms: nat)
      modifies this`log
      ensures log == old(log) + [Delay(ms)]
    {
      log := log + [Delay(ms)];
    }

    /** `clear_pins`: AR, BR and C go low, every other bit of P1OUT stays. */
    method ClearPins()
      modifies this`out
      ensures out == Quiesce(old(out))
      ensures out !! DriveLines && out - DriveLines == old(out) - DriveLines
    {
      out := out - {AR, BR, C};
    }

    /** The discrimination block of `try_npn_nchannel`: drive the gate high
        again, settle, and read `cross`; high means a MOSFET. */
    method NpnDiscriminate(gate: Bit, cross: Bit)
      modifies this
      ensures State() == RunReport(NpnReport(gate, cross), old(State()), p1in)
    {
      out := out + {gate};
      assert out == Apply(Drive({gate}, {}), old(out));
      DelayMs(ChgDelay);
      var v := ReadP1In();
      if cross in v {
        LcdPrint(NChannel, 0, 0);
      } else {
        LcdPrint(Npn, 0, 0);
      }
    }

    /** The block of `try_npn_nchannel` after a first pass: gate low, "PASS 1",
        settle, read `probe` again; high confirms the hypothesis. */
    method NpnConfirm(gate: Bit, probe: Bit, cross: Bit)
      modifies this
      ensures State() == RunConfirm(probe, Drive({}, {gate}), true, NpnReport(gate, cross), old(State()), p1in)
    {
      out := out - {gate};
      assert out == Apply(Drive({}, {gate}), old(out));
      LcdPrint(Pass1, 1, 0);
      DelayMs(ChgDelay);
      var v := ReadP1In();
      if probe in v {
        LcdPrint(Pass2, 1, 0);
        recognized := true;
        NpnDiscriminate(gate, cross);
      }
    }

    /** Gate on B: `try_npn_nchannel`, first hypothesis. */
    method NpnGateOnB()
      modifies this
      ensures State() == RunHypothesis(Hypotheses(NpnNChannel)[0], old(State()), p1in)
    {
      out := out + {AR};        // collector (drain) high
      out := out + {BR};        // base (gate) high
      out := out - {C};         // emitter (source) low
      assert out == Apply(Drive({AR, BR}, {C}), old(out));
      DelayMs(ChgDelay);
      var v := ReadP1In();
      if A !in v {
        NpnConfirm(BR, A, B);
      }
    }

    /** Gate on A: `try_npn_nchannel`, second hypothesis. */
    method NpnGateOnA()
      modifies this
      ensures State() == RunHypothesis(Hypotheses(NpnNChannel)[1], old(State()), p1in)
    {
      out := out + {AR};        // base (gate) high
      out := out + {BR};        // collector (drain) high
      out := out - {C};         // emitter (source) low
      assert out == Apply(Drive({AR, BR}, {C}), old(out));
      DelayMs(ChgDelay);
      var v := ReadP1In();
      if B !in v {
        NpnConfirm(AR, B, A);
      }
    }

    /** Gate on C: `try_npn_nchannel`, third hypothesis. */
    method NpnGateOnC()
      modifies this
      ensures State() == RunHypothesis(Hypotheses(NpnNChannel)[2], old(State()), p1in)
    {
      out := out + {AR};        // collector (drain) high
      out := out - {BR};        // emitter (source) low
      out := out + {C};         // base (gate) high
      assert out == Apply(Drive({AR, C}, {BR}), old(out));
      DelayMs(ChgDelay);
      var v := ReadP1In();
      if A !in v {
        NpnConfirm(C, A, CR);
      }
    }

    /** The discrimination block of `try_pnp_pchannel`: drive the gate low,
        settle, and read `cross`; low means a MOSFET. */
    method PnpDiscriminate(gate: Bit, cross: Bit)
      modifies this
      ensures State() == RunReport(PnpReport(gate, cross), old(State()), p1in)
    {
      out := out - {gate};
      assert out == Apply(Drive({}, {gate}), old(out));
      DelayMs(ChgDelay);
      var v := ReadP1In();
      if cross !in v {
        LcdPrint(PChannel, 0, 0);
      } else {
        LcdPrint(Pnp, 0, 0);
      }
    }

    /** The block of `try_pnp_pchannel` after a first pass: gate low, "PASS 1",
        settle, read `probe` again; high confirms the hypothesis. */
    method PnpConfirm(gate: Bit, probe: Bit, cross: Bit)
      modifies this
      ensures State() == RunConfirm(probe, Drive({}, {gate}), true, PnpReport(gate, cross), old(State()), p1in)
    {
      out := out - {gate};
      assert out == Apply(Drive({}, {gate}), old(out));
      LcdPrint(Pass1, 1, 0);
      DelayMs(ChgDelay);
      var v := ReadP1In();
      if probe in v {
        LcdPrint(Pass2, 1, 0);
        recognized := true;
        PnpDiscriminate(gate, cross);
      }
    }

    /** Gate on B: `try_pnp_pchannel`, first hypothesis. */
    method PnpGateOnB()
      modifies this
      ensures State() == RunHypothesis(Hypotheses(PnpPChannel)[0], old(State()), p1in)
    {
      out := out - {AR};        // collector (drain) low
      out := out + {BR};        // base (gate) high
      out := out + {C};         // emitter (source) high
      assert out == Apply(Drive({BR, C}, {AR}), old(out));
      DelayMs(ChgDelay);
      var v := ReadP1In();
      if A !in v {
        PnpConfirm(BR, A, B);
      }
    }

    /** Gate on A: `try_pnp_pchannel`, second hypothesis. */
    method PnpGateOnA()
      modifies this
      ensures State() == RunHypothesis(Hypotheses(PnpPChannel)[1], old(State()), p1in)
    {
      out := out + {AR};        // base (gate) high
      out := out - {BR};        // collector (drain) low
      out := out + {C};         // emitter (source) high
      assert out == Apply(Drive({AR, C}, {BR}), old(out));
      DelayMs(ChgDelay);
      var v := ReadP1In();
      if B !in v {
        PnpConfirm(AR, B, A);
      }
    }

    /** Gate on C: `try_pnp_pchannel`, third hypothesis. */
    method PnpGateOnC()
      modifies this
      ensures State() == RunHypothesis(Hypotheses(PnpPChannel)[2], old(State()), p1in)
    {
      out := out - {AR};        // collector (drain) low
      out := out + {BR};        // emitter (source) high
      out := out + {C};         // base (gate) high
      assert out == Apply(Drive({BR, C}, {AR}), old(out));
      DelayMs(ChgDelay);
      var v := ReadP1In();
      if A !in v {
        PnpConfirm(C, A, CR);
      }
    }

    /** The block of `try_diode` after a first pass: drive AR low and C high,
        "PASS 1", settle, read A again; the level `pass2High` confirms the
        hypothesis, and the device and its `orientation` are shown. */
    method DiodeConfirm(pass2High: bool, orientation: Message)
      modifies this
      ensures State() == RunConfirm(A, Drive({C}, {AR}), pass2High, Announce(DiodeKind, orientation), old(State()), p1in)
    {
      out := out - {AR};
      out := out + {C};
      assert out == Apply(Drive({C}, {AR}), old(out));
      LcdPrint(Pass1, 1, 0);
      DelayMs(ChgDelay);
      var v := ReadP1In();
      if Shows(v, A, pass2High) {
        LcdPrint(Pass2, 1, 0);
        recognized := true;
        LcdPrint(DiodeKind, 0, 0);
        LcdPrint(orientation, 1, 0);
      }
    }

    /** Anode on probe 1: `try_diode`, first hypothesis; A must read low
        with the diode forward biased and again after the inversion. */
    method DiodeAnodeOnA()
      modifies this
      ensures State() == RunHypothesis(Hypotheses(Diode)[0], old(State()), p1in)
    {
      out := out + {AR};        // anode high
      out := out - {C};         // cathode low
      assert out == Apply(Drive({AR}, {C}), old(out));
      DelayMs(ChgDelay);
      var v := ReadP1In();
      if A !in v {
        DiodeConfirm(false, AnodeOnA);
      }
    }

    /** Anode on probe 3: `try_diode`, second hypothesis; A must read high
        twice, and the "inversion" drives the same levels again. */
    method DiodeAnodeOnC()
      modifies this
      ensures State() == RunHypothesis(Hypotheses(Diode)[1], old(State()), p1in)
    {
      out := out - {AR};        // cathode low
      out := out + {C};         // anode high
      assert out == Apply(Drive({C}, {AR}), old(out));
      DelayMs(ChgDelay);
      var v := ReadP1In();
      if A in v {
        DiodeConfirm(true, AnodeOnC);
      }
    }

    /** `try_npn_nchannel`: gate on B, then, while RECOGNIZED is clear, gate
        on A and gate on C. */
    method TryNpnNChannel()
      modifies this
      ensures State() == RunFamily(NpnNChannel, old(State()), p1in)
    {
      ghost var hs := Hypotheses(NpnNChannel);
      NpnGateOnB();
      ghost var s1 := State();
      assert RunFamily(NpnNChannel, old(State()), p1in) == RunRest(hs[1..], s1, p1in);
      if !recognized {
        NpnGateOnA();
      }
      ghost var s2 := State();
      assert s2 == Guarded(hs[1], s1, p1in);
      assert hs[1..][1..] == hs[2..];
      assert RunRest(hs[1..], s1, p1in) == RunRest(hs[2..], s2, p1in);
      if !recognized {
        NpnGateOnC();
      }
      assert State() == Guarded(hs[2], s2, p1in);
      assert hs[2..][1..] == [];
      assert RunRest(hs[2..], s2, p1in) == RunRest(hs[2..][1..], State(), p1in);
    }

    /** `try_pnp_pchannel`: gate on B, then, while RECOGNIZED is clear, gate
        on A and gate on C. */
    method TryPnpPChannel()
      modifies this
      ensures State() == RunFamily(PnpPChannel, old(State()), p1in)
    {
      ghost var hs := Hypotheses(PnpPChannel);
      PnpGateOnB();
      ghost var s1 := State();
      assert RunFamily(PnpPChannel, old(State()), p1in) == RunRest(hs[1..], s1, p1in);
      if !recognized {
        PnpGateOnA();
      }
      ghost var s2 := State();
      assert s2 == Guarded(hs[1], s1, p1in);
      assert hs[1..][1..] == hs[2..];
      assert RunRest(hs[1..], s1, p1in) == RunRest(hs[2..], s2, p1in);
      if !recognized {
        PnpGateOnC();
      }
      assert State() == Guarded(hs[2], s2, p1in);
      assert hs[2..][1..] == [];
      assert RunRest(hs[2..], s2, p1in) == RunRest(hs[2..][1..], State(), p1in);
    }

    /** `try_diode`: anode on probe 1, then, while RECOGNIZED is clear, anode
        on probe 3. */
    method TryDiode()
      modifies this
      ensures State() == RunFamily(Diode, old(State()), p1in)
    {
      ghost var hs := Hypotheses(Diode);
      DiodeAnodeOnA();
      ghost var s1 := State();
      assert RunFamily(Diode, old(State()), p1in) == RunRest(hs[1..], s1, p1in);
      if !recognized {
        DiodeAnodeOnC();
      }
      assert State() == Guarded(hs[1], s1, p1in);
      assert hs[1..][1..] == [];
      assert RunRest(hs[1..], s1, p1in) == RunRest(hs[1..][1..], State(), p1in);
    }

    /** `switch (curr_test)` in `main`. */
    method RunTest(currTest: nat)
      modifies this
      ensures State() == Scheduler.RunTest(currTest, old(State()), p1in)
    {
      match currTest {
        case 0 => TryNpnNChannel();
        case 1 => TryPnpPChannel();
        case 2 => TryDiode();
        case _ => LcdPrint(Nothing, 0, 0);
      }
    }

    /** One pass of the inner loop of `main`: `clear_pins`, the switch, and
        the counter update; returns the new `curr_test`. */
    method Pass(currTest: nat) returns (next: nat)
      modifies this
      ensures Scheduler.Loop(next, State()) == Scheduler.Step(currTest, old(State()), p1in)
    {
      ClearPins();
      RunTest(currTest);
      next := currTest + 1;
      if next > 4 || recognized {
        next := 0;
      }
    }

    /** The inner loop of `main`, `while (!RECOGNIZED)` from `curr_test = 0`,
        cut off after `fuel` passes. */
    method InnerLoop(fuel: nat)
      modifies this
      ensures State() == Scheduler.Inner(fuel, old(State()), p1in).state
    {
      ghost var c0 := State();
      var currTest: nat := 0;
      var n: nat := 0;
      if recognized {
        Scheduler.InnerSettles(0, fuel, c0, p1in);
      }
      while !recognized && n < fuel
        invariant n <= fuel
        invariant Scheduler.Loop(currTest, State()) == Scheduler.Inner(n, c0, p1in)
        invariant recognized ==> Scheduler.Inner(fuel, c0, p1in) == Scheduler.Inner(n, c0, p1in)
        decreases fuel - n
      {
        currTest := Pass(currTest);
        n := n + 1;
        if recognized {
          Scheduler.InnerSettles(n, fuel, c0, p1in);
        }
      }
    }

    /** One iteration of `while (TRUE)` in `main`: the inner loop, then, once
        it has exited, a 500 ms delay and, if RECOGNIZED is set, clearing it
        and 500 ms more. `held` says whether the inner loop exited within
        `fuel` passes. */
    method OuterIteration(fuel: nat) returns (held: bool)
      modifies this
      ensures Scheduler.Round(held, State()) == Scheduler.Outer(fuel, old(State()), p1in)
      ensures !recognized
    {
      InnerLoop(fuel);
      held := recognized;
      if held {
        DelayMs(HoldDelay);
        if recognized {
          recognized := false;
          DelayMs(HoldDelay);
        }
      }
    }
  }
}
