/** The family tests as one parametrised skeleton driven by a table of
    hypotheses per device family. This is the reference the firmware's three
    hand-unrolled procedures are proved to follow (see module Firmware). */
module Families {
  import opened Pins
  import opened Machine

  /** What a hypothesis does once both passes succeed. */
  datatype Report =
      /** transistor families: drive the gate again, then read a second probe;
          `fetHigh` is the level there that means field-effect */
    | Discriminate(regate: Drive, cross: Bit, fetHigh: bool, fet: Message, bjt: Message)
      /** diodes: name the device on row 0 and its orientation on row 1 */
    | Announce(kind: Message, orientation: Message)

  /** One terminal-role assignment tried against the socket. */
  datatype Hypothesis = Hypothesis(
    setup: Drive,      // driven before the first read
    probe: Bit,        // the sense line read by both passes
    pass1High: bool,   // the level the first read must show
    flip: Drive,       // driven once the first read passes
    pass2High: bool,   // the level the second read must show
    report: Report)

  datatype Family = NpnNChannel | PnpPChannel | Diode

  /** The hypotheses of each family, in the order the firmware tries them.
      Transistors: gate on B, gate on A, gate on C. Diodes: anode on probe 1,
      then anode on probe 3. */
  function Hypotheses(f: Family): (hs: seq<Hypothesis>)
    ensures |hs| == if f == Diode then 2 else 3
  {
    match f
    case NpnNChannel => [
      Hypothesis(Drive({AR, BR}, {C}), A, false, Drive({}, {BR}), true, NpnReport(BR, B)),
      Hypothesis(Drive({AR, BR}, {C}), B, false, Drive({}, {AR}), true, NpnReport(AR, A)),
      Hypothesis(Drive({AR, C}, {BR}), A, false, Drive({}, {C}), true, NpnReport(C, CR))]
    case PnpPChannel => [
      Hypothesis(Drive({BR, C}, {AR}), A, false, Drive({}, {BR}), true, PnpReport(BR, B)),
      Hypothesis(Drive({AR, C}, {BR}), B, false, Drive({}, {AR}), true, PnpReport(AR, A)),
      Hypothesis(Drive({BR, C}, {AR}), A, false, Drive({}, {C}), true, PnpReport(C, CR))]
    case Diode => [
      Hypothesis(Drive({AR}, {C}), A, false, Drive({C}, {AR}), false, Announce(DiodeKind, AnodeOnA)),
      Hypothesis(Drive({C}, {AR}), A, true, Drive({C}, {AR}), true, Announce(DiodeKind, AnodeOnC))]
  }

  /** The NPN / N-channel discrimination: drive the gate high again; a high
      level on `cross` means a MOSFET. */
  function NpnReport(gate: Bit, cross: Bit): Report
  {
    Discriminate(Drive({gate}, {}), cross, true, NChannel, Npn)
  }

  /** The PNP / P-channel discrimination: drive the gate low; a low level on
      `cross` means a MOSFET. */
  function PnpReport(gate: Bit, cross: Bit): Report
  {
    Discriminate(Drive({}, {gate}), cross, false, PChannel, Pnp)
  }

  /** Texts a report may print. */
  function ReportTexts(r: Report): set<Message>
  {
    match r
    case Discriminate(_, _, _, fet, bjt) => {fet, bjt}
    case Announce(kind, orientation) => {kind, orientation}
  }

  /** Texts a hypothesis may print. */
  function Texts(h: Hypothesis): set<Message>
  {
    {Pass1, Pass2} + ReportTexts(h.report)
  }

  /** Every drive pattern stays on the drive lines and no report reuses a
      progress message. */
  predicate WellFormed(h: Hypothesis)
  {
    && Within(h.setup) && Within(h.flip)
    && (h.report.Discriminate? ==> Within(h.report.regate))
    && Pass1 !in ReportTexts(h.report) && Pass2 !in ReportTexts(h.report)
  }

  /** Does the first read of `h`, taken from configuration `c`, pass? */
  predicate FirstPasses(h: Hypothesis, c: Config, p1in: Input)
  {
    Shows(p1in(c.samples), h.probe, h.pass1High)
  }

  /** Do both reads of `h`, taken from configuration `c`, pass? */
  predicate Confirms(h: Hypothesis, c: Config, p1in: Input)
  {
    FirstPasses(h, c, p1in) && Shows(p1in(c.samples + 1), h.probe, h.pass2High)
  }

  /** The step after a confirmation. */
  function RunReport(r: Report, c: Config, p1in: Input): Config
  {
    match r
    case Discriminate(regate, cross, fetHigh, fet, bjt) =>
      var s := c.(out := Apply(regate, c.out), log := c.log + [Delay(ChgDelay)]);
      s.(log := s.log + [Print(if Shows(p1in(s.samples), cross, fetHigh) then fet else bjt, 0, 0)],
         samples := s.samples + 1)
    case Announce(kind, orientation) =>
      c.(log := c.log + [Print(kind, 0, 0)] + [Print(orientation, 1, 0)])
  }

  /** The second half of the template, entered once the first read has
      passed: change the pattern, report "PASS 1", settle, read `probe` again;
      on a pass report "PASS 2", set RECOGNIZED and run the report. */
  function RunConfirm(probe: Bit, flip: Drive, pass2High: bool, report: Report, c: Config, p1in: Input): Config
  {
    var s := c.(out := Apply(flip, c.out), log := c.log + [Print(Pass1, 1, 0)] + [Delay(ChgDelay)]);
    if Shows(p1in(s.samples), probe, pass2High) then
      RunReport(report, s.(recognized := true, log := s.log + [Print(Pass2, 1, 0)], samples := s.samples + 1), p1in)
    else
      s.(samples := s.samples + 1)
  }

  /** The shared test template: drive, settle, read; on a pass go on with
      RunConfirm. */
  function RunHypothesis(h: Hypothesis, c: Config, p1in: Input): Config
  {
    var s := c.(out := Apply(h.setup, c.out), log := c.log + [Delay(ChgDelay)]);
    if Shows(p1in(s.samples), h.probe, h.pass1High) then
      RunConfirm(h.probe, h.flip, h.pass2High, h.report, s.(samples := s.samples + 1), p1in)
    else
      s.(samples := s.samples + 1)
  }

  /** `if (!RECOGNIZED) { ... }` around every hypothesis after the first. */
  function Guarded(h: Hypothesis, c: Config, p1in: Input): Config
  {
    if c.recognized then c else RunHypothesis(h, c, p1in)
  }

  /** The guarded hypotheses `hs`, one after another. */
  function RunRest(hs: seq<Hypothesis>, c: Config, p1in: Input): Config
    decreases |hs|
  {
    if hs == [] then c else RunRest(hs[1..], Guarded(hs[0], c, p1in), p1in)
  }

  /** One family test: its first hypothesis unconditionally, the others each
      only while RECOGNIZED is still clear. */
  function RunFamily(f: Family, c: Config, p1in: Input): Config
  {
    var hs := Hypotheses(f);
    RunRest(hs[1..], RunHypothesis(hs[0], c, p1in), p1in)
  }

  lemma TablesWellFormed(f: Family)
    ensures forall h | h in Hypotheses(f) :: WellFormed(h)
  {
  }

  /** A hypothesis sets RECOGNIZED exactly when both of its reads pass, and
      reads P1IN at least once. */
  lemma HypothesisVerdict(h: Hypothesis, c: Config, p1in: Input)
    ensures var r := RunHypothesis(h, c, p1in);
      && r.recognized == (c.recognized || Confirms(h, c, p1in))
      && c.samples < r.samples
  {
  }

  /** "PASS 1" is printed exactly when the first read passes, "PASS 2" exactly
      when the hypothesis is confirmed. */
  lemma HypothesisProgress(h: Hypothesis, c: Config, p1in: Input)
    requires Pass1 !in ReportTexts(h.report) && Pass2 !in ReportTexts(h.report)
    ensures var r := RunHypothesis(h, c, p1in);
      && Count(r.log, Print(Pass1, 1, 0)) == Count(c.log, Print(Pass1, 1, 0)) + (if FirstPasses(h, c, p1in) then 1 else 0)
      && Count(r.log, Print(Pass2, 1, 0)) == Count(c.log, Print(Pass2, 1, 0)) + (if Confirms(h, c, p1in) then 1 else 0)
  {
    if FirstPasses(h, c, p1in) {
      var s := c.(out := Apply(h.setup, c.out), log := c.log + [Delay(ChgDelay)], samples := c.samples + 1);
      assert RunHypothesis(h, c, p1in) == RunConfirm(h.probe, h.flip, h.pass2High, h.report, s, p1in);
      ConfirmProgress(h.probe, h.flip, h.pass2High, h.report, s, p1in);
    } else {
      assert RunHypothesis(h, c, p1in).log == c.log + [Delay(ChgDelay)];
    }
  }

  /** Once the first read has passed, "PASS 1" is printed, and "PASS 2"
      exactly when the second read passes. */
  lemma ConfirmProgress(probe: Bit, flip: Drive, pass2High: bool, report: Report, c: Config, p1in: Input)
    requires Pass1 !in ReportTexts(report) && Pass2 !in ReportTexts(report)
    ensures var r := RunConfirm(probe, flip, pass2High, report, c, p1in);
      && Count(r.log, Print(Pass1, 1, 0)) == Count(c.log, Print(Pass1, 1, 0)) + 1
      && Count(r.log, Print(Pass2, 1, 0)) == Count(c.log, Print(Pass2, 1, 0)) + (if Shows(p1in(c.samples), probe, pass2High) then 1 else 0)
  {
    if Shows(p1in(c.samples), probe, pass2High) {
      var s := c.(out := Apply(flip, c.out), recognized := true,
                  log := c.log + [Print(Pass1, 1, 0)] + [Delay(ChgDelay)] + [Print(Pass2, 1, 0)],
                  samples := c.samples + 1);
      ReportQuiet(report, s, p1in, Print(Pass1, 1, 0));
      ReportQuiet(report, s, p1in, Print(Pass2, 1, 0));
    }
  }

  /** A report prints only its own texts. */
  lemma ReportQuiet(r: Report, c: Config, p1in: Input, e: Event)
    requires e.Print? && e.msg !in ReportTexts(r)
    ensures Count(RunReport(r, c, p1in).log, e) == Count(c.log, e)
  {
  }

  /** Exactly one message reaches row 0 when the hypothesis is confirmed, none
      otherwise. */
  lemma HypothesisHeadline(h: Hypothesis, c: Config, p1in: Input)
    ensures Headlines(RunHypothesis(h, c, p1in).log) == Headlines(c.log) + (if Confirms(h, c, p1in) then 1 else 0)
  {
    HeadlinesAdditive();
    if FirstPasses(h, c, p1in) {
      var s := c.(out := Apply(h.setup, c.out), log := c.log + [Delay(ChgDelay)], samples := c.samples + 1);
      assert RunHypothesis(h, c, p1in) == RunConfirm(h.probe, h.flip, h.pass2High, h.report, s, p1in);
      ConfirmHeadline(h.probe, h.flip, h.pass2High, h.report, s, p1in);
    } else {
      assert RunHypothesis(h, c, p1in).log == c.log + [Delay(ChgDelay)];
    }
  }

  /** Once the first read has passed, exactly one message reaches row 0 when
      the second read passes, none otherwise. */
  lemma ConfirmHeadline(probe: Bit, flip: Drive, pass2High: bool, report: Report, c: Config, p1in: Input)
    ensures Headlines(RunConfirm(probe, flip, pass2High, report, c, p1in).log)
         == Headlines(c.log) + (if Shows(p1in(c.samples), probe, pass2High) then 1 else 0)
  {
    HeadlinesAdditive();
  }

  /** A well-formed hypothesis changes only the drive lines of P1OUT. */
  lemma HypothesisFrame(h: Hypothesis, c: Config, p1in: Input)
    requires WellFormed(h)
    ensures RunHypothesis(h, c, p1in).out - DriveLines == c.out - DriveLines
  {
    var o1 := Apply(h.setup, c.out);
    var o2 := Apply(h.flip, o1);
    WithinKeepsOthers(h.setup, c.out);
    WithinKeepsOthers(h.flip, o1);
    if h.report.Discriminate? {
      WithinKeepsOthers(h.report.regate, o2);
    }
  }

  /** What one hypothesis does, in terms of the two reads it takes. */
  lemma HypothesisOutcome(h: Hypothesis, c: Config, p1in: Input)
    requires WellFormed(h)
    ensures var r := RunHypothesis(h, c, p1in);
      && r.recognized == (c.recognized || Confirms(h, c, p1in))
      && Count(r.log, Print(Pass2, 1, 0)) == Count(c.log, Print(Pass2, 1, 0)) + (if Confirms(h, c, p1in) then 1 else 0)
      && Headlines(r.log) == Headlines(c.log) + (if Confirms(h, c, p1in) then 1 else 0)
      && r.out - DriveLines == c.out - DriveLines
  {
    HypothesisVerdict(h, c, p1in);
    HypothesisProgress(h, c, p1in);
    HypothesisHeadline(h, c, p1in);
    HypothesisFrame(h, c, p1in);
  }

  /** A hypothesis prints only its own texts. */
  lemma HypothesisQuiet(h: Hypothesis, c: Config, p1in: Input, e: Event)
    requires e.Print? && e.msg !in Texts(h)
    ensures Count(RunHypothesis(h, c, p1in).log, e) == Count(c.log, e)
  {
    if FirstPasses(h, c, p1in) {
      var s := c.(out := Apply(h.setup, c.out), log := c.log + [Delay(ChgDelay)], samples := c.samples + 1);
      assert RunHypothesis(h, c, p1in) == RunConfirm(h.probe, h.flip, h.pass2High, h.report, s, p1in);
      ConfirmQuiet(h.probe, h.flip, h.pass2High, h.report, s, p1in, e);
    } else {
      assert RunHypothesis(h, c, p1in).log == c.log + [Delay(ChgDelay)];
    }
  }

  /** The second half of a hypothesis prints only the progress messages and
      its report's texts. */
  lemma ConfirmQuiet(probe: Bit, flip: Drive, pass2High: bool, report: Report, c: Config, p1in: Input, e: Event)
    requires e.Print? && e.msg !in {Pass1, Pass2} + ReportTexts(report)
    ensures Count(RunConfirm(probe, flip, pass2High, report, c, p1in).log, e) == Count(c.log, e)
  {
    if Shows(p1in(c.samples), probe, pass2High) {
      var s := c.(out := Apply(flip, c.out), recognized := true,
                  log := c.log + [Print(Pass1, 1, 0)] + [Delay(ChgDelay)] + [Print(Pass2, 1, 0)],
                  samples := c.samples + 1);
      ReportQuiet(report, s, p1in, e);
    }
  }

  /** Once RECOGNIZED is set, no further hypothesis runs. */
  lemma {:induction false} RestSkipped(hs: seq<Hypothesis>, c: Config, p1in: Input)
    requires c.recognized
    ensures RunRest(hs, c, p1in) == c
    decreases |hs|
  {
    if hs != [] {
      RestSkipped(hs[1..], c, p1in);
    }
  }

  /** Guarded hypotheses confirm at most once, and only a confirmation
      reports; they touch only the drive lines. */
  lemma {:induction false} RestOutcome(hs: seq<Hypothesis>, c: Config, p1in: Input)
    requires forall h | h in hs :: WellFormed(h)
    ensures var r := RunRest(hs, c, p1in);
      var once := if r.recognized && !c.recognized then 1 else 0;
      && (c.recognized ==> r.recognized)
      && Count(r.log, Print(Pass2, 1, 0)) == Count(c.log, Print(Pass2, 1, 0)) + once
      && Headlines(r.log) == Headlines(c.log) + once
      && r.out - DriveLines == c.out - DriveLines
    decreases |hs|
  {
    if hs != [] {
      assert hs[0] in hs;
      var d := Guarded(hs[0], c, p1in);
      if !c.recognized {
        HypothesisOutcome(hs[0], c, p1in);
      }
      if d.recognized {
        RestSkipped(hs[1..], d, p1in);
      } else {
        assert forall h | h in hs[1..] :: h in hs;
        RestOutcome(hs[1..], d, p1in);
      }
    }
  }

  /** Guarded hypotheses print only their own texts. */
  lemma {:induction false} RestQuiet(hs: seq<Hypothesis>, c: Config, p1in: Input, e: Event)
    requires e.Print? && forall h | h in hs :: e.msg !in Texts(h)
    ensures Count(RunRest(hs, c, p1in).log, e) == Count(c.log, e)
    decreases |hs|
  {
    if hs != [] {
      assert hs[0] in hs;
      if !c.recognized {
        HypothesisQuiet(hs[0], c, p1in, e);
      }
      assert forall h | h in hs[1..] :: h in hs;
      RestQuiet(hs[1..], Guarded(hs[0], c, p1in), p1in, e);
    }
  }

  /** One family test, entered with RECOGNIZED clear: exactly one "PASS 2"
      and exactly one message on row 0 when it recognizes a device, none
      otherwise; only the drive lines of P1OUT change. */
  lemma FamilyOutcome(f: Family, c: Config, p1in: Input)
    requires !c.recognized
    ensures var r := RunFamily(f, c, p1in);
      var once := if r.recognized then 1 else 0;
      && Count(r.log, Print(Pass2, 1, 0)) == Count(c.log, Print(Pass2, 1, 0)) + once
      && Headlines(r.log) == Headlines(c.log) + once
      && r.out - DriveLines == c.out - DriveLines
  {
    var hs := Hypotheses(f);
    TablesWellFormed(f);
    HypothesisOutcome(hs[0], c, p1in);
    var d := RunHypothesis(hs[0], c, p1in);
    assert forall h | h in hs[1..] :: h in hs;
    RestOutcome(hs[1..], d, p1in);
    if d.recognized {
      RestSkipped(hs[1..], d, p1in);
    }
  }

  /** A family test prints nothing but its hypotheses' texts. */
  lemma FamilyQuiet(f: Family, c: Config, p1in: Input, e: Event)
    requires e.Print? && forall h | h in Hypotheses(f) :: e.msg !in Texts(h)
    ensures Count(RunFamily(f, c, p1in).log, e) == Count(c.log, e)
  {
    var hs := Hypotheses(f);
    HypothesisQuiet(hs[0], c, p1in, e);
    assert forall h | h in hs[1..] :: h in hs;
    RestQuiet(hs[1..], RunHypothesis(hs[0], c, p1in), p1in, e);
  }

  /** "Nothing " is never printed by a family test. */
  lemma NothingNotAFamilyText(f: Family)
    ensures forall h | h in Hypotheses(f) :: Nothing !in Texts(h)
  {
  }

  /** The NPN / N-channel hypotheses: probe A, B, A low before and high after
      the gate (B, A, C) goes low; on confirmation the gate is driven high
      again and a high level on the cross probe (B, A, CR) means N-channel. */
  lemma NpnVerdict(i: nat, c: Config, p1in: Input)
    requires i < 3
    ensures var r := RunHypothesis(Hypotheses(NpnNChannel)[i], c, p1in);
      var probe, gate, cross := [A, B, A][i], [BR, AR, C][i], [B, A, CR][i];
      var confirmed := probe !in p1in(c.samples) && probe in p1in(c.samples + 1);
      && r.recognized == (c.recognized || confirmed)
      && (confirmed ==>
            && gate in r.out
            && r.samples == c.samples + 3
            && r.log == c.log + [Delay(ChgDelay), Print(Pass1, 1, 0), Delay(ChgDelay), Print(Pass2, 1, 0), Delay(ChgDelay),
                                 Print(if cross in p1in(c.samples + 2) then NChannel else Npn, 0, 0)])
  {
  }

  /** The PNP / P-channel hypotheses: the same probes and the same LOW-then-HIGH
      pass levels as NPN; on confirmation the gate is driven low and a low
      level on the cross probe means P-channel. */
  lemma PnpVerdict(i: nat, c: Config, p1in: Input)
    requires i < 3
    ensures var r := RunHypothesis(Hypotheses(PnpPChannel)[i], c, p1in);
      var probe, gate, cross := [A, B, A][i], [BR, AR, C][i], [B, A, CR][i];
      var confirmed := probe !in p1in(c.samples) && probe in p1in(c.samples + 1);
      && r.recognized == (c.recognized || confirmed)
      && (confirmed ==>
            && gate !in r.out
            && r.samples == c.samples + 3
            && r.log == c.log + [Delay(ChgDelay), Print(Pass1, 1, 0), Delay(ChgDelay), Print(Pass2, 1, 0), Delay(ChgDelay),
                                 Print(if cross !in p1in(c.samples + 2) then PChannel else Pnp, 0, 0)])
  {
  }

  /** A transistor family test, entered with RECOGNIZED clear, runs gate on
      B, then gate on A only if that did not confirm, then gate on C only if
      neither did; it recognizes exactly when one of them confirms, and ends
      in the state of the hypothesis that confirmed (or of the last one). */
  lemma TransistorFamilyVerdict(f: Family, c: Config, p1in: Input)
    requires f != Diode && !c.recognized
    ensures var hs := Hypotheses(f);
      var r := RunFamily(f, c, p1in);
      var d0 := RunHypothesis(hs[0], c, p1in);
      var d1 := RunHypothesis(hs[1], d0, p1in);
      var d2 := RunHypothesis(hs[2], d1, p1in);
      && r.recognized == (Confirms(hs[0], c, p1in) || Confirms(hs[1], d0, p1in) || Confirms(hs[2], d1, p1in))
      && (Confirms(hs[0], c, p1in) ==> r == d0)
      && (!Confirms(hs[0], c, p1in) && Confirms(hs[1], d0, p1in) ==> r == d1)
      && (!Confirms(hs[0], c, p1in) && !Confirms(hs[1], d0, p1in) ==> r == d2)
  {
    var hs := Hypotheses(f);
    var d0 := RunHypothesis(hs[0], c, p1in);
    var d1 := RunHypothesis(hs[1], d0, p1in);
    HypothesisVerdict(hs[0], c, p1in);
    assert hs[1..][0] == hs[1] && hs[1..][1..] == hs[2..];
    assert hs[2..][0] == hs[2] && hs[2..][1..] == [];
    assert RunFamily(f, c, p1in) == RunRest(hs[2..], Guarded(hs[1], d0, p1in), p1in);
    if d0.recognized {
      RestSkipped(hs[2..], d0, p1in);
    } else {
      HypothesisVerdict(hs[1], d0, p1in);
      assert RunRest(hs[2..], d1, p1in) == RunRest([], Guarded(hs[2], d1, p1in), p1in);
      if d1.recognized {
        assert RunFamily(f, c, p1in) == d1;
      } else {
        HypothesisVerdict(hs[2], d1, p1in);
      }
    }
  }

  /** `try_npn_nchannel` recognizes exactly when one of its hypotheses sees
      its probe LOW and then HIGH, and then the last thing it prints is
      "N-Channel" or "NPN     " on row 0. */
  lemma NpnFamilyVerdict(c: Config, p1in: Input)
    requires !c.recognized
    ensures var hs := Hypotheses(NpnNChannel);
      var r := RunFamily(NpnNChannel, c, p1in);
      var d0 := RunHypothesis(hs[0], c, p1in);
      var d1 := RunHypothesis(hs[1], d0, p1in);
      && r.recognized == (Confirms(hs[0], c, p1in) || Confirms(hs[1], d0, p1in) || Confirms(hs[2], d1, p1in))
      && (r.recognized ==> |r.log| > |c.log| && r.log[|r.log| - 1] in {Print(NChannel, 0, 0), Print(Npn, 0, 0)})
  {
    var hs := Hypotheses(NpnNChannel);
    var d0 := RunHypothesis(hs[0], c, p1in);
    var d1 := RunHypothesis(hs[1], d0, p1in);
    TransistorFamilyVerdict(NpnNChannel, c, p1in);
    if Confirms(hs[0], c, p1in) {
      NpnKind(0, c, p1in);
    } else if Confirms(hs[1], d0, p1in) {
      NpnKind(1, d0, p1in);
    } else if Confirms(hs[2], d1, p1in) {
      NpnKind(2, d1, p1in);
    }
  }

  /** A confirmed NPN hypothesis ends by printing its kind on row 0. */
  lemma NpnKind(i: nat, c: Config, p1in: Input)
    requires i < 3 && Confirms(Hypotheses(NpnNChannel)[i], c, p1in)
    ensures var r := RunHypothesis(Hypotheses(NpnNChannel)[i], c, p1in);
      |r.log| > |c.log| && r.log[|r.log| - 1] in {Print(NChannel, 0, 0), Print(Npn, 0, 0)}
  {
    NpnVerdict(i, c, p1in);
  }

  /** `try_pnp_pchannel` recognizes on the same readings, and then the last
      thing it prints is "P-Channel" or "PNP     " on row 0. */
  lemma PnpFamilyVerdict(c: Config, p1in: Input)
    requires !c.recognized
    ensures var hs := Hypotheses(PnpPChannel);
      var r := RunFamily(PnpPChannel, c, p1in);
      var d0 := RunHypothesis(hs[0], c, p1in);
      var d1 := RunHypothesis(hs[1], d0, p1in);
      && r.recognized == (Confirms(hs[0], c, p1in) || Confirms(hs[1], d0, p1in) || Confirms(hs[2], d1, p1in))
      && (r.recognized ==> |r.log| > |c.log| && r.log[|r.log| - 1] in {Print(PChannel, 0, 0), Print(Pnp, 0, 0)})
  {
    var hs := Hypotheses(PnpPChannel);
    var d0 := RunHypothesis(hs[0], c, p1in);
    var d1 := RunHypothesis(hs[1], d0, p1in);
    TransistorFamilyVerdict(PnpPChannel, c, p1in);
    if Confirms(hs[0], c, p1in) {
      PnpKind(0, c, p1in);
    } else if Confirms(hs[1], d0, p1in) {
      PnpKind(1, d0, p1in);
    } else if Confirms(hs[2], d1, p1in) {
      PnpKind(2, d1, p1in);
    }
  }

  /** A confirmed PNP hypothesis ends by printing its kind on row 0. */
  lemma PnpKind(i: nat, c: Config, p1in: Input)
    requires i < 3 && Confirms(Hypotheses(PnpPChannel)[i], c, p1in)
    ensures var r := RunHypothesis(Hypotheses(PnpPChannel)[i], c, p1in);
      |r.log| > |c.log| && r.log[|r.log| - 1] in {Print(PChannel, 0, 0), Print(Pnp, 0, 0)}
  {
    PnpVerdict(i, c, p1in);
  }

  /** The PNP test confirms on exactly the readings the NPN test confirms on. */
  lemma PnpPassesLikeNpn(i: nat, c: Config, p1in: Input)
    requires i < 3
    ensures RunHypothesis(Hypotheses(PnpPChannel)[i], c, p1in).recognized
         == RunHypothesis(Hypotheses(NpnNChannel)[i], c, p1in).recognized
  {
    NpnVerdict(i, c, p1in);
    PnpVerdict(i, c, p1in);
  }

  /** In the PNP test the gate is already low when it is "driven low" for the
      discrimination read, so that step leaves P1OUT as it is. */
  lemma PnpRegateIdle(i: nat, out: Port)
    requires i < 3
    ensures var h := Hypotheses(PnpPChannel)[i];
      Apply(h.report.regate, Apply(h.flip, out)) == Apply(h.flip, out)
  {
  }

  /** The diode test: anode on probe 1 when A samples low twice, otherwise
      anode on probe 3 when A then samples high twice. */
  lemma DiodeVerdict(c: Config, p1in: Input)
    requires !c.recognized
    ensures var hs := Hypotheses(Diode);
      var r := RunFamily(Diode, c, p1in);
      var d := RunHypothesis(hs[0], c, p1in);
      var first := A !in p1in(c.samples) && A !in p1in(c.samples + 1);
      var second := A in p1in(d.samples) && A in p1in(d.samples + 1);
      && d.samples == c.samples + (if A !in p1in(c.samples) then 2 else 1)
      && r.recognized == (first || second)
      && (first ==> r == d && r.log[|r.log| - 2..] == [Print(DiodeKind, 0, 0), Print(AnodeOnA, 1, 0)])
      && (!first ==> r == RunHypothesis(hs[1], d, p1in))
      && (!first && second ==> r.log[|r.log| - 2..] == [Print(DiodeKind, 0, 0), Print(AnodeOnC, 1, 0)])
  {
    var hs := Hypotheses(Diode);
    var d := RunHypothesis(hs[0], c, p1in);
    assert hs[1..][0] == hs[1] && hs[1..][1..] == [];
    assert RunRest(hs[1..], d, p1in) == RunRest([], Guarded(hs[1], d, p1in), p1in);
  }

  /** The second diode hypothesis "inverts the polarization" by driving the
      very levels it already drove, so P1OUT does not change between its two
      samples. */
  lemma DiodeSecondInvertIdle(out: Port)
    ensures var h := Hypotheses(Diode)[1];
      Apply(h.flip, Apply(h.setup, out)) == Apply(h.setup, out)
  {
  }
}
