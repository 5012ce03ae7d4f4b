/** The classification loop of `main` as a specification: the counter
    `curr_test` selects a family test, `clear_pins` comes before every test,
    the inner loop runs until RECOGNIZED is set, and a recognition is held on
    the display for two 500 ms delays before the flag is cleared. */
module Scheduler {
  import opened Pins
  import opened Machine
  import opened Families

  /** `switch (curr_test)`: a family test for 0, 1 and 2; any other value
      falls to `default` and reports "Nothing ". */
  function RunTest(t: nat, c: Config, p1in: Input): Config
  {
    match t
    case 0 => RunFamily(NpnNChannel, c, p1in)
    case 1 => RunFamily(PnpPChannel, c, p1in)
    case 2 => RunFamily(Diode, c, p1in)
    case _ => c.(log := c.log + [Print(Nothing, 0, 0)])
  }

  /** `curr_test++` followed by `if (curr_test > 4 || RECOGNIZED) curr_test = 0`. */
  function NextTest(t: nat, recognized: bool): nat
  {
    if t + 1 > 4 || recognized then 0 else t + 1
  }

  /** Where the inner loop stands: the value of `curr_test` and the state. */
  datatype Loop = Loop(counter: nat, state: Config)

  /** One pass of the inner loop's body: the next counter value and state. */
  function Step(t: nat, c: Config, p1in: Input): Loop
  {
    var r := RunTest(t, c.(out := Quiesce(c.out)), p1in);
    Loop(NextTest(t, r.recognized), r)
  }

  /** Counter and state after the inner loop's condition has been evaluated
      `n` times, starting from `curr_test = 0`; once RECOGNIZED is set the
      loop has exited and nothing changes any more. */
  function Inner(n: nat, c: Config, p1in: Input): Loop
  {
    if n == 0 then Loop(0, c)
    else
      var prev := Inner(n - 1, c, p1in);
      if prev.state.recognized then prev else Step(prev.counter, prev.state, p1in)
  }

  /** The code after the inner loop: one 500 ms delay, then, if RECOGNIZED is
      set, clear it and wait 500 ms more. */
  function Hold(c: Config): (r: Config)
    ensures !r.recognized && r.out == c.out && r.samples == c.samples
    ensures c.recognized ==> r.log == c.log + [Delay(HoldDelay), Delay(HoldDelay)]
  {
    var d := c.(log := c.log + [Delay(HoldDelay)]);
    if d.recognized then d.(recognized := false, log := d.log + [Delay(HoldDelay)]) else d
  }

  /** The end of one iteration of `while (TRUE)`: whether the inner loop
      exited, and the resulting state. */
  datatype Round = Round(held: bool, state: Config)

  /** One iteration of `while (TRUE)`, with the inner loop cut off after
      `fuel` passes. */
  function Outer(fuel: nat, c: Config, p1in: Input): Round
  {
    var inner := Inner(fuel, c, p1in).state;
    if inner.recognized then Round(true, Hold(inner)) else Round(false, inner)
  }

  /** After an exit, more passes of the inner loop change nothing. */
  lemma {:induction false} InnerSettles(n: nat, m: nat, c: Config, p1in: Input)
    requires n <= m && Inner(n, c, p1in).state.recognized
    ensures Inner(m, c, p1in) == Inner(n, c, p1in)
    decreases m
  {
    if m > n {
      InnerSettles(n, m - 1, c, p1in);
    }
  }

  /** RECOGNIZED, once set by the inner loop, stays set. */
  lemma {:induction false} InnerMonotone(n: nat, m: nat, c: Config, p1in: Input)
    requires n <= m && !Inner(m, c, p1in).state.recognized
    ensures !Inner(n, c, p1in).state.recognized
  {
    if Inner(n, c, p1in).state.recognized {
      InnerSettles(n, m, c, p1in);
    }
  }

  /** `curr_test` never leaves 0..4. */
  lemma {:induction false} CounterInRange(n: nat, c: Config, p1in: Input)
    ensures Inner(n, c, p1in).counter <= 4
  {
    if n > 0 {
      CounterInRange(n - 1, c, p1in);
    }
  }

  /** While nothing is recognized the counter cycles 0, 1, 2, 3, 4, 0, ...:
      a full round is five passes, not the three families. */
  lemma IdleRotation(n: nat, c: Config, p1in: Input)
    requires !Inner(n, c, p1in).state.recognized
    ensures Inner(n, c, p1in).counter == n % 5
  {
    var counter := (k: nat) => Inner(k, c, p1in).counter;
    forall k: nat | k < n
      ensures counter(k + 1) == NextTest(counter(k), false)
    {
      IdleAdvance(k, n, c, p1in);
    }
    RoundCounter(counter, n);
  }

  /** Pass `k + 1` of an inner loop still idle after `n` passes advances the
      counter as if nothing had been recognized. */
  lemma IdleAdvance(k: nat, n: nat, c: Config, p1in: Input)
    requires k < n && !Inner(n, c, p1in).state.recognized
    ensures Inner(k + 1, c, p1in).counter == NextTest(Inner(k, c, p1in).counter, false)
  {
    InnerMonotone(k + 1, n, c, p1in);
  }

  /** A counter started at 0 and advanced by NextTest without a recognition
      is the number of steps modulo 5. */
  lemma {:induction false} RoundCounter(counter: nat -> nat, n: nat)
    requires counter(0) == 0
    requires forall k: nat :: k < n ==> counter(k + 1) == NextTest(counter(k), false)
    ensures counter(n) == n % 5
  {
    if n > 0 {
      RoundCounter(counter, n - 1);
    }
  }

  /** Without a recognition, one pass prints "Nothing " exactly when the
      counter is 3 or 4. */
  lemma StepNothing(t: nat, c: Config, p1in: Input)
    requires t <= 4
    ensures var e := Print(Nothing, 0, 0);
      Count(Step(t, c, p1in).state.log, e) == Count(c.log, e) + (if t >= 3 then 1 else 0)
  {
    var e := Print(Nothing, 0, 0);
    var q := c.(out := Quiesce(c.out));
    if t == 0 {
      NothingNotAFamilyText(NpnNChannel);
      FamilyQuiet(NpnNChannel, q, p1in, e);
    } else if t == 1 {
      NothingNotAFamilyText(PnpPChannel);
      FamilyQuiet(PnpPChannel, q, p1in, e);
    } else if t == 2 {
      NothingNotAFamilyText(Diode);
      FamilyQuiet(Diode, q, p1in, e);
    }
  }

  /** While nothing is recognized, "Nothing " is printed twice in every full
      round of five passes (at counts 3 and 4), and once more when the last
      round stops after its count-3 pass. */
  lemma IdleNothings(n: nat, c: Config, p1in: Input)
    requires !Inner(n, c, p1in).state.recognized
    ensures var e := Print(Nothing, 0, 0);
      Count(Inner(n, c, p1in).state.log, e) == Count(c.log, e) + 2 * (n / 5) + (if n % 5 == 4 then 1 else 0)
  {
    var e := Print(Nothing, 0, 0);
    var nothings := (k: nat) => Count(Inner(k, c, p1in).state.log, Print(Nothing, 0, 0));
    forall j: nat, k: nat | k < n && j == k + 1
      ensures nothings(j) == nothings(k) + (if k % 5 >= 3 then 1 else 0)
    {
      IdleNothing(k, n, c, p1in);
    }
    RoundCount(nothings, n);
  }

  /** Pass `k + 1` of an inner loop still idle after `n` passes prints
      "Nothing " exactly when `k` ends in 3 or 4 modulo 5. */
  lemma IdleNothing(k: nat, n: nat, c: Config, p1in: Input)
    requires k < n && !Inner(n, c, p1in).state.recognized
    ensures var e := Print(Nothing, 0, 0);
      Count(Inner(k + 1, c, p1in).state.log, e) == Count(Inner(k, c, p1in).state.log, e) + (if k % 5 >= 3 then 1 else 0)
  {
    InnerMonotone(k, n, c, p1in);
    IdleRotation(k, c, p1in);
    var prev := Inner(k, c, p1in);
    StepNothing(prev.counter, prev.state, p1in);
  }

  /** A count that grows by one exactly at the steps ending in 3 or 4
      modulo 5 grows by two per round of five. */
  lemma {:induction false} RoundCount(count: nat -> nat, n: nat)
    requires forall j: nat, k: nat :: k < n && j == k + 1 ==> count(j) == count(k) + (if k % 5 >= 3 then 1 else 0)
    ensures count(n) == count(0) + 2 * (n / 5) + (if n % 5 == 4 then 1 else 0)
  {
    if n > 0 {
      RoundCount(count, n - 1);
      var k := n - 1;
      if k % 5 == 4 {
        assert n / 5 == k / 5 + 1 && n % 5 == 0;
      } else {
        assert n / 5 == k / 5 && n % 5 == k % 5 + 1;
      }
    }
  }

  /** Because `clear_pins` comes first, a pass does not depend on the levels
      the previous test left on the drive lines. */
  lemma StepIgnoresStaleDrive(t: nat, c: Config, stale: Port, p1in: Input)
    requires stale - DriveLines == c.out - DriveLines
    ensures Step(t, c.(out := stale), p1in) == Step(t, c, p1in)
  {
    assert Quiesce(stale) == Quiesce(c.out);
  }

  /** A pass that recognizes a device was a family test and resets the
      counter; it adds one "PASS 2" exactly when it recognizes. */
  lemma StepOutcome(t: nat, c: Config, p1in: Input)
    requires !c.recognized
    ensures var s := Step(t, c, p1in);
      && (s.state.recognized ==> s.counter == 0 && t <= 2)
      && Count(s.state.log, Print(Pass2, 1, 0)) == Count(c.log, Print(Pass2, 1, 0)) + (if s.state.recognized then 1 else 0)
  {
    var q := c.(out := Quiesce(c.out));
    if t == 0 {
      FamilyOutcome(NpnNChannel, q, p1in);
    } else if t == 1 {
      FamilyOutcome(PnpPChannel, q, p1in);
    } else if t == 2 {
      FamilyOutcome(Diode, q, p1in);
    }
  }

  /** Each iteration of the outer loop ends with RECOGNIZED clear; it holds a
      result exactly when the inner loop recognized a device, and then the
      log ends with the two 500 ms delays. */
  lemma OuterOutcome(fuel: nat, c: Config, p1in: Input)
    ensures var o := Outer(fuel, c, p1in);
      var inner := Inner(fuel, c, p1in).state;
      && !o.state.recognized
      && o.held == inner.recognized
      && (o.held ==> o.state.log == inner.log + [Delay(HoldDelay), Delay(HoldDelay)])
  {
  }
}
