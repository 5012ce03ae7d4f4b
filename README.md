# Transistor tester: classification engine

A Dafny model of the part of the MSP430 transistor-tester firmware
(`firmware/main.c`) that decides what sits in the three-pin socket.

The firmware has three family tests: `try_npn_nchannel`, `try_pnp_pchannel`
and `try_diode`. Each one tries a fixed, ordered list of pin hypotheses. A
hypothesis works in three steps:

- It drives the lines AR, BR and `_C` of P1OUT, waits `CHG_DELAY` ms and
  samples one sense line of P1IN.
- If that sample passes, it changes the drive, prints "PASS 1", waits and
  samples again.
- If the second sample passes too, it prints "PASS 2" and sets the global
  `RECOGNIZED`. It then reports the device. A transistor gets a third
  "discrimination" sample that separates a MOSFET from a BJT. A diode gets
  its orientation.

The loop in `main` works like this:

- It calls `clear_pins` before every test.
- It steps a counter `curr_test` through the values 0..4. Values 0, 1 and 2
  select a family, and 3 and 4 print "Nothing ".
- It resets the counter when the counter passes 4 or when a device is
  recognized.
- Once a device is recognized, it waits 500 ms, clears the flag and waits
  500 ms more.

The project has five modules:

- `Pins` (pins.dfy) holds the port 1 bit positions and the drive operations.
  A register value is the set of its bit positions that read or drive 1:
  - `P1OUT |= m` adds the bits of `m`.
  - `P1OUT &= ~m` removes them.
  - `(P1IN & m) == 0` and `(P1IN & m) == m` test whether the one bit of `m`
    is in the set.
- `Machine` (machine.dfy) holds the engine's state as a value (`Config`):
  - P1OUT and `RECOGNIZED`;
  - a log of every `lcd_print` and `delay_ms` call;
  - the number of P1IN samples taken so far.

  P1IN is an input function `Input` that gives the value of the n-th sample.
- `Families` (families.dfy) is a reference definition of the three family
  tests. It is one parametrised template (`RunHypothesis`) driven by a table
  of hypotheses per family (`Hypotheses`). The lemmas state what a hypothesis
  and a family test do in terms of the samples.
- `Scheduler` (scheduler.dfy) is the loop of `main` as functions of the
  number of inner-loop passes. Its lemmas cover the counter's rotation, the
  "Nothing " reports, the exit and the hold.
- `Firmware` (tester.dfy) is the firmware as it is written. Class `Tester`
  has the fields P1OUT, `RECOGNIZED`, the call log and the sample count.
  Every block of `try_npn_nchannel`, `try_pnp_pchannel` and `try_diode` is
  one method doing the same bit sets, bit clears, delays, samples and prints
  in the same order. Each method is proved to produce exactly the state that
  the `Families` or `Scheduler` definition gives.

The C code repeats one block shape three times per transistor family. In
this model that shape is written once, as a method with the gate, the probe
and the cross probe as parameters, for example `NpnConfirm(gate, probe,
cross)`. The three call sites pass the bits the C code names.

Three behaviours of the code are worth knowing, and the model keeps them as
written:

- The PNP / P-channel test passes on the same LOW-then-HIGH levels as the
  NPN test, not on complemented ones (firmware/main.c:214, 220).
  `Families.PnpPassesLikeNpn` states this.
- The second diode hypothesis "inverts the polarization" by driving the very
  levels it has already driven (firmware/main.c:333-334, 339-340).
  `Families.DiodeSecondInvertIdle` states this.
- The loop bound `curr_test > 4` gives two "Nothing " passes per round, at
  counts 3 and 4 (firmware/main.c:81-84). `Scheduler.IdleNothings` states
  the count.

## Model

| member | source | states |
|---|---|---|
| Pins.Quiesce | firmware/main.c:98-100 | after `clear_pins` the bits AR, BR and `_C` are clear and every other bit of P1OUT is as before |
| Pins.Apply | firmware/main.c:107-109 | a drive pattern clears its low bits, sets its high bits and keeps every bit it does not name |
| Pins.WithinKeepsOthers | firmware/main.c:105-353 | a pattern that names only AR, BR and `_C` leaves every other bit of P1OUT unchanged |
| Machine.Text | firmware/main.c:115-132 | every text handed to `lcd_print` is 6 to 9 characters, the width of the padded messages |
| Pins.Shows | firmware/main.c:112-118 | the level tests `(P1IN & m) == 0` (LOW) and `(P1IN & m) == m` (HIGH) on a one-bit mask |
| Families.RunReport | firmware/main.c:124-133 | the step after a confirmation: a transistor's gate re-drive, settle and discrimination sample with its kind on row 0 (also 226-235); a diode's kind on row 0 and orientation on row 1 (326-327) |
| Families.NpnReport | firmware/main.c:124-133 | NPN discrimination: gate high again, a HIGH cross sample means "N-Channel", otherwise "NPN     " |
| Families.PnpReport | firmware/main.c:226-235 | PNP discrimination: gate low, a LOW cross sample means "P-Channel", otherwise "PNP     " |
| Families.RunConfirm | firmware/main.c:114-134 | the block after a first pass: flip the drive, "PASS 1", settle, sample again; on a pass "PASS 2", set RECOGNIZED and report |
| Families.RunHypothesis | firmware/main.c:106-135 | one hypothesis: drive, settle, sample, and on a pass the confirmation block |
| Families.Guarded | firmware/main.c:138-168 | an `if (!RECOGNIZED) { ... }` block around a hypothesis |
| Families.RunRest | firmware/main.c:137-201 | the guarded hypotheses after the first, in order (also 239-303, 331-352) |
| Families.RunFamily | firmware/main.c:105-202 | a family test: its first hypothesis unconditionally, the rest guarded (also 207-304, 309-353) |
| Families.TransistorFamilyVerdict | firmware/main.c:105-304 | a transistor family test recognizes iff gate on B confirms, or else gate on A confirms after it, or else gate on C; it ends in the state of the hypothesis that confirmed |
| Families.NpnFamilyVerdict | firmware/main.c:105-202 | `try_npn_nchannel` recognizes iff one of its hypotheses confirms in turn, and its last print is then "N-Channel" or "NPN     " on row 0 |
| Families.NpnKind | firmware/main.c:123-133 | a confirmed NPN hypothesis ends by printing "N-Channel" or "NPN     " on row 0 |
| Families.PnpFamilyVerdict | firmware/main.c:207-304 | `try_pnp_pchannel` recognizes iff one of its hypotheses confirms in turn, and its last print is then "P-Channel" or "PNP     " on row 0 |
| Families.PnpKind | firmware/main.c:225-235 | a confirmed PNP hypothesis ends by printing "P-Channel" or "PNP     " on row 0 |
| Families.Hypotheses | firmware/main.c:105-353 | the transistor families try three hypotheses (gate on B, A, C) and the diode family two |
| Families.TablesWellFormed | firmware/main.c:105-353 | every drive pattern in the tables names only AR, BR and `_C`, and no report reuses "PASS 1" / "PASS 2" |
| Families.HypothesisVerdict | firmware/main.c:112-121 | a hypothesis sets RECOGNIZED exactly when both of its samples pass, and it samples P1IN at least once |
| Families.HypothesisProgress | firmware/main.c:112-119 | "PASS 1" is printed exactly when the first sample passes, "PASS 2" exactly when both pass |
| Families.ConfirmProgress | firmware/main.c:114-119 | once the first sample has passed, "PASS 1" is printed once, and "PASS 2" exactly when the second sample passes |
| Families.ReportQuiet | firmware/main.c:123-133 | a report prints only its own texts |
| Families.HypothesisHeadline | firmware/main.c:112-133 | exactly one message reaches display row 0 when the hypothesis is confirmed, none otherwise |
| Families.ConfirmHeadline | firmware/main.c:114-133 | after the first pass, one row-0 message exactly when the second sample passes |
| Families.HypothesisFrame | firmware/main.c:106-135 | a hypothesis changes no bit of P1OUT other than AR, BR and `_C` |
| Families.HypothesisOutcome | firmware/main.c:106-135 | verdict, "PASS 2" count, row-0 count and P1OUT frame of one hypothesis, together |
| Families.HypothesisQuiet | firmware/main.c:106-135 | a hypothesis prints only "PASS 1", "PASS 2" and its report's texts |
| Families.ConfirmQuiet | firmware/main.c:114-134 | the second half of a hypothesis prints only the progress texts and its report's texts |
| Families.RestSkipped | firmware/main.c:138 | once RECOGNIZED is set, the `if (!RECOGNIZED)` blocks that follow do nothing |
| Families.RestOutcome | firmware/main.c:137-201 | the guarded hypotheses confirm at most once, print one "PASS 2" and one row-0 message only then, and keep the other P1OUT bits |
| Families.RestQuiet | firmware/main.c:137-201 | the guarded hypotheses print only their own texts |
| Families.FamilyOutcome | firmware/main.c:105-202 | a family test entered with RECOGNIZED clear prints one "PASS 2" and one kind on row 0 when it recognizes, none otherwise, and writes only AR, BR and `_C` |
| Families.FamilyQuiet | firmware/main.c:105-353 | a family test prints nothing but its hypotheses' texts |
| Families.NothingNotAFamilyText | firmware/main.c:76-79 | "Nothing " is not among the texts of any family test |
| Families.NpnVerdict | firmware/main.c:105-202 | for NPN hypothesis i (probe A, B, A; gate BR, AR, `_C`; cross B, A, CR), it confirms iff the probe samples LOW then HIGH; then the gate is high again, three samples were taken, and the log gains exactly the delays, "PASS 1", "PASS 2" and "N-Channel" if the cross probe samples HIGH, else "NPN     " |
| Families.PnpVerdict | firmware/main.c:207-304 | the same for PNP: the same LOW-then-HIGH confirmation, the gate ends low, and "P-Channel" is printed if the cross probe samples LOW, else "PNP     " |
| Families.PnpPassesLikeNpn | firmware/main.c:214-223 | the PNP hypotheses confirm on exactly the samples the NPN hypotheses confirm on |
| Families.PnpRegateIdle | firmware/main.c:226-291 | driving the PNP gate low for the discrimination sample (lines 226, 258, 291) does not change P1OUT, since the gate is already low |
| Families.DiodeVerdict | firmware/main.c:309-353 | the diode test recognizes iff A samples LOW twice (then "Diode   ", "A=1 C=3 ") or, failing that, the second hypothesis sees A HIGH twice (then "Diode   ", "C=1 A=3 "); the second hypothesis runs only when the first did not confirm |
| Families.DiodeSecondInvertIdle | firmware/main.c:333-340 | the second diode hypothesis' "inversion" leaves P1OUT as it was |
| Scheduler.RunTest | firmware/main.c:59-79 | the switch: a family test for `curr_test` 0, 1, 2 and "Nothing " on row 0 otherwise |
| Scheduler.NextTest | firmware/main.c:81-84 | `curr_test++`, then reset to 0 when it exceeds 4 or RECOGNIZED is set |
| Scheduler.Step | firmware/main.c:57-84 | one inner pass: `clear_pins`, the switch, the counter update |
| Scheduler.Inner | firmware/main.c:55-85 | the inner loop from `curr_test = 0` after n evaluations of its condition; nothing changes once RECOGNIZED is set |
| Scheduler.Outer | firmware/main.c:54-92 | one iteration of `while (TRUE)`: the inner loop, then the hold once it has exited |
| Scheduler.Hold | firmware/main.c:87-91 | after the inner loop RECOGNIZED ends clear; a recognition is followed by two 500 ms delays |
| Scheduler.InnerSettles | firmware/main.c:56 | once the inner loop has exited, further passes change nothing |
| Scheduler.InnerMonotone | firmware/main.c:56-85 | RECOGNIZED, once set in the inner loop, stays set |
| Scheduler.CounterInRange | firmware/main.c:81-84 | `curr_test` never leaves 0..4 |
| Scheduler.IdleRotation | firmware/main.c:55-84 | while nothing is recognized, `curr_test` after n passes is n mod 5 |
| Scheduler.IdleAdvance | firmware/main.c:81-84 | a pass of an inner loop that is still idle advances the counter as the increment-and-reset rule does without a recognition |
| Scheduler.StepNothing | firmware/main.c:59-79 | a pass prints "Nothing " exactly when the counter is 3 or 4 |
| Scheduler.IdleNothings | firmware/main.c:55-85 | while nothing is recognized, n passes print "Nothing " 2·(n div 5) times, plus one more when n mod 5 is 4 |
| Scheduler.IdleNothing | firmware/main.c:76-84 | pass k+1 of an idle inner loop prints "Nothing " exactly when k mod 5 is 3 or 4 |
| Scheduler.StepIgnoresStaleDrive | firmware/main.c:57 | since `clear_pins` runs first, a pass does not depend on the drive levels the previous test left |
| Scheduler.StepOutcome | firmware/main.c:57-84 | a pass that recognizes was a family test (counter 0..2) and resets the counter to 0, and it adds one "PASS 2" exactly when it recognizes |
| Scheduler.OuterOutcome | firmware/main.c:54-92 | an outer iteration ends with RECOGNIZED clear; it holds exactly when the inner loop exited, and then the log ends with the two 500 ms delays |
| Firmware.Tester.constructor | firmware/main.c:28 | the engine starts with RECOGNIZED false, an empty log and no samples taken |
| Firmware.Tester.ReadP1In | firmware/main.c:112 | a read of P1IN returns the next scripted sample and counts it |
| Firmware.Tester.LcdPrint | firmware/main.c:115 | a display call appends its message, row and column to the log |
| Firmware.Tester.DelayMs | firmware/main.c:110 | a delay appends its length to the log |
| Firmware.Tester.ClearPins | firmware/main.c:98-100 | AR, BR and `_C` go low and every other bit of P1OUT is unchanged |
| Firmware.Tester.NpnDiscriminate | firmware/main.c:124-133 | the state after the NPN discrimination block equals the reference report: gate high, settle, "N-Channel" if the cross probe samples HIGH, else "NPN     " |
| Firmware.Tester.NpnConfirm | firmware/main.c:114-134 | the state after the block that follows the first pass equals the reference second half of an NPN hypothesis |
| Firmware.Tester.NpnGateOnB | firmware/main.c:106-135 | gate on B ends in the state the first NPN hypothesis of the table gives |
| Firmware.Tester.NpnGateOnA | firmware/main.c:137-168 | gate on A ends in the state the second NPN hypothesis gives |
| Firmware.Tester.NpnGateOnC | firmware/main.c:170-201 | gate on C ends in the state the third NPN hypothesis gives |
| Firmware.Tester.PnpDiscriminate | firmware/main.c:226-235 | the state after the PNP discrimination block equals the reference report: gate low, settle, "P-Channel" if the cross probe samples LOW, else "PNP     " |
| Firmware.Tester.PnpConfirm | firmware/main.c:216-236 | the state after the block that follows the first pass equals the reference second half of a PNP hypothesis |
| Firmware.Tester.PnpGateOnB | firmware/main.c:208-237 | gate on B ends in the state the first PNP hypothesis gives |
| Firmware.Tester.PnpGateOnA | firmware/main.c:239-270 | gate on A ends in the state the second PNP hypothesis gives |
| Firmware.Tester.PnpGateOnC | firmware/main.c:272-303 | gate on C ends in the state the third PNP hypothesis gives |
| Firmware.Tester.DiodeConfirm | firmware/main.c:316-328 | the state after the inversion block equals the reference second half of a diode hypothesis |
| Firmware.Tester.DiodeAnodeOnA | firmware/main.c:310-329 | anode on probe 1 ends in the state the first diode hypothesis gives |
| Firmware.Tester.DiodeAnodeOnC | firmware/main.c:331-352 | anode on probe 3 ends in the state the second diode hypothesis gives |
| Firmware.Tester.TryNpnNChannel | firmware/main.c:105-202 | `try_npn_nchannel` ends in the state of the reference NPN family test: first hypothesis, then each later one only while RECOGNIZED is clear |
| Firmware.Tester.TryPnpPChannel | firmware/main.c:207-304 | `try_pnp_pchannel` ends in the state of the reference PNP family test |
| Firmware.Tester.TryDiode | firmware/main.c:309-353 | `try_diode` ends in the state of the reference diode family test |
| Firmware.Tester.RunTest | firmware/main.c:59-79 | the switch on `curr_test` ends in the state of the reference dispatch: a family test for 0..2, "Nothing " otherwise |
| Firmware.Tester.Pass | firmware/main.c:57-84 | one inner pass (`clear_pins`, the switch, the counter update) returns the counter and ends in the state of the reference step |
| Firmware.Tester.InnerLoop | firmware/main.c:55-85 | the inner loop, cut off after `fuel` passes, ends in the state of the reference inner loop |
| Firmware.Tester.OuterIteration | firmware/main.c:54-92 | one iteration of `while (TRUE)` matches the reference outer iteration and always ends with RECOGNIZED clear |

## Left out

- Hardware setup is not modelled: `WDTCTL`, the `P1DIR` directions and `lcd_init` (firmware/main.c:40-52) contain no decision logic.
- `lcd_print`, `delay_ms` and the HD44780 driver are not part of this model. Each call is recorded as a log entry, and the display's contents are not modelled.
- The electrical behaviour of the device under test is not modelled. P1IN is an input function that gives the value of each successive sample.
- The commented-out `try_short`, the interrupt and PWM setup and `P1_ISR` (firmware/main.c:72-75 and after line 355) are dead code.
- The infinite `while (TRUE)` is modelled as one outer iteration (`OuterIteration`). The inner `while (!RECOGNIZED)` is cut off after a `fuel` number of passes, and `held` says whether it exited within them.
- The width of `unsigned int curr_test` does not matter: `Scheduler.CounterInRange` shows that the counter stays in 0..4.
- Register values are sets of bit positions, not bytes. Bits 6 and 7 and the byte encoding are not modelled beyond "every other bit is kept".
- Message texts are an enumeration (`Machine.Message`), and `Machine.Text` gives each one's characters.
- Machine.Text: states only the length range of the texts, not that each message overwrites the whole of the previous one. "N-Channel" and "P-Channel" are 9 characters and the other kinds are 8, so the display may keep a stale ninth character. The model does not track the display's contents.
- Families.FamilyOutcome: assumes RECOGNIZED is clear on entry, as `main` guarantees. With the flag already set, the first hypothesis of a family still runs in the C code, and `RunFamily` models that too, but the lemma says nothing about that case.
