/** The stepping loop of 8bit-computer.ts (8bit-computer.ts:141-173): each of the
    `runFor` iterations toggles the clock, sets the switches for that iteration,
    runs `evaluate` `EVALS_PER_STEP` times and samples the network.

    The functions below give the network after each iteration; `Simulate` is the
    loop itself, over the array and the lookup, proved to follow them, and `Run`
    assembles the list, builds its lookup and calls it. The lemmas then
    trace the run: the clock alternates, the switches take the values the loop
    gives them, every latch of both registers holds 1 from the first iteration
    on, and the tristates and bus lines stay "x". */
module Driver {
  import opened Components
  import Gates
  import opened Names
  import opened Latches
  import opened Engine
  import opened LatchBehaviour
  import opened Computer
  import opened EightBit

  /** `EVALS_PER_STEP` and `runFor`. */
  const EvalsPerStep: nat := 5
  const RunFor: nat := 25

  /** The lookup leads `id` to a component of `s`. */
  predicate Known(s: seq<Component>, lookup: map<string, nat>, id: string) {
    id in lookup && lookup[id] < |s|
  }

  /** Every id the loop writes is found by the lookup. */
  predicate Driveable(s: seq<Component>, lookup: map<string, nat>) {
    Known(s, lookup, "clock") && Known(s, lookup, WriteEnable(1)) &&
    Known(s, lookup, OutputEnable(1)) && Known(s, lookup, OutputEnable(2)) &&
    forall m :: 0 <= m < |DataInputs| ==> DataInputs[m] in lookup && lookup[DataInputs[m]] < |s|
  }

  /* ---------- one iteration, as functions of the network ---------- */

  /** `componentLookup[id].state = v`: the component the lookup leads to takes state v, and
      nothing else changes. */
  function SetState(s: seq<Component>, lookup: map<string, nat>, id: string, v: State): (r: seq<Component>)
    requires Known(s, lookup, id)
    ensures SameShape(r, s)
    ensures r[lookup[id]].state == v
    ensures forall k :: 0 <= k < |s| && k != lookup[id] ==> r[k] == s[k]
  {
    s[lookup[id] := s[lookup[id]].(state := v)]
  }

  /** The assignments `componentLookup[ids[0]].state = v`, ..., `componentLookup[ids[count - 1]].state = v`,
      in order. */
  function SetAll(s: seq<Component>, lookup: map<string, nat>, ids: seq<string>, v: State, count: nat): (r: seq<Component>)
    requires count <= |ids|
    requires forall m :: 0 <= m < |ids| ==> ids[m] in lookup && lookup[ids[m]] < |s|
    ensures SameShape(r, s)
    ensures forall m :: 0 <= m < count ==> r[lookup[ids[m]]].state == v
    ensures forall k :: 0 <= k < |s| && (forall m :: 0 <= m < count ==> lookup[ids[m]] != k) ==> r[k] == s[k]
  {
    if count == 0 then s
    else SetState(SetAll(s, lookup, ids, v, count - 1), lookup, ids[count - 1], v)
  }

  /** The clock flips unless it is "x". */
  function ToggleClock(s: seq<Component>, lookup: map<string, nat>): (r: seq<Component>)
    requires Known(s, lookup, "clock")
    ensures SameShape(r, s)
    ensures forall k :: 0 <= k < |s| && k != lookup["clock"] ==> r[k] == s[k]
    ensures s[lookup["clock"]].state == X ==> r[lookup["clock"]].state == X
    ensures s[lookup["clock"]].state != X ==>
              r[lookup["clock"]].state != X && r[lookup["clock"]].state != s[lookup["clock"]].state
  {
    var c := Read(s, lookup, "clock");
    if c == X then s else SetState(s, lookup, "clock", Gates.Not(c))
  }

  /** The switches of iteration `iteration`: at iteration 2 the eight data switches and the
      write switch of r1 go to 1, at iteration 4 that write switch goes back to 0, and the
      output switches of r1 and r2 take 1 and 0 on even iterations, 0 and 1 on odd ones. */
  function SetSwitches(s: seq<Component>, lookup: map<string, nat>, iteration: nat): (r: seq<Component>)
    requires Driveable(s, lookup)
    ensures SameShape(r, s)
  {
    var a := if iteration == 2 then SetState(SetAll(s, lookup, DataInputs, One, 8), lookup, WriteEnable(1), One)
             else if iteration == 4 then SetState(s, lookup, WriteEnable(1), Zero)
             else s;
    if iteration % 2 == 0 then SetState(SetState(a, lookup, OutputEnable(1), One), lookup, OutputEnable(2), Zero)
    else SetState(SetState(a, lookup, OutputEnable(1), Zero), lookup, OutputEnable(2), One)
  }

  /** The start of an iteration: toggle the clock, then set the switches. */
  function Prepare(s: seq<Component>, lookup: map<string, nat>, iteration: nat): (r: seq<Component>)
    requires Driveable(s, lookup)
    ensures SameShape(r, s)
  {
    SetSwitches(ToggleClock(s, lookup), lookup, iteration)
  }

  /** One iteration: toggle the clock, set the switches, then `EvalsPerStep` passes. */
  function Step(s: seq<Component>, lookup: map<string, nat>, iteration: nat): (r: seq<Component>)
    requires Resolvable(s, lookup) && Driveable(s, lookup)
    ensures SameShape(r, s) && Resolvable(r, lookup) && Driveable(r, lookup)
  {
    var u := Prepare(s, lookup, iteration);
    ResolvableShape(s, u, lookup);
    Passes(u, lookup, EvalsPerStep)
  }

  /** The network after the first n iterations. */
  function States(s: seq<Component>, lookup: map<string, nat>, n: nat): (r: seq<Component>)
    requires Resolvable(s, lookup) && Driveable(s, lookup)
    ensures SameShape(r, s) && Resolvable(r, lookup) && Driveable(r, lookup)
  {
    if n == 0 then s else Step(States(s, lookup, n - 1), lookup, n - 1)
  }

  /** `trace.sample(components)`: the state of every component, by id. */
  function Snapshot(s: seq<Component>, lookup: map<string, nat>): Sample {
    map id | id in lookup && lookup[id] < |s| :: s[lookup[id]].state
  }

  /* ---------- where the lookup leads the ids the loop writes ---------- */

  /** The lookup built for the network leads the data switch ids, the write enable of r1 and
      the output enables of r1 and r2 to their positions. */
  lemma DriverPositions(lookup: map<string, nat>)
    requires Positions(lookup)
    ensures forall m :: 0 <= m < |DataInputs| ==> DataInputs[m] in lookup && lookup[DataInputs[m]] == InputAt(m + 1)
    ensures forall reg :: 1 <= reg <= 2 ==>
              WriteEnable(reg) in lookup && lookup[WriteEnable(reg)] == WriteAt(reg) &&
              OutputEnable(reg) in lookup && lookup[OutputEnable(reg)] == OutputAt(reg)
  {
    LiteralIds();
    assert BankPosition(lookup, 1) && BankPosition(lookup, 2);
    forall m | 0 <= m < |DataInputs|
      ensures DataInputs[m] in lookup && lookup[DataInputs[m]] == InputAt(m + 1)
    {
      assert BankPosition(lookup, m + 1);
      assert DataInputs[m] == DataInputs[(m + 1) - 1];
    }
  }

  lemma WiringDriveable(s: seq<Component>, lookup: map<string, nat>)
    requires Wiring(s, lookup)
    ensures Driveable(s, lookup) && Resolvable(s, lookup)
  {
    DriverPositions(lookup);
    WiringResolvable(s, lookup);
  }

  /* ---------- what the switches of one iteration do ---------- */

  /** The state position k holds after the switches of iteration `iteration` are set, when it
      held v before. */
  function Switched(iteration: nat, k: nat, v: State): State {
    if k == OutputAt(1) then (if iteration % 2 == 0 then One else Zero)
    else if k == OutputAt(2) then (if iteration % 2 == 0 then Zero else One)
    else if k == WriteAt(1) && iteration == 2 then One
    else if k == WriteAt(1) && iteration == 4 then Zero
    else if iteration == 2 && InputAt(1) <= k <= InputAt(8) then One
    else v
  }

  /** In the network's layout the switches of an iteration change the states of the switches
      they name, as `Switched` says, and nothing else. */
  lemma SetSwitchesAt(s: seq<Component>, lookup: map<string, nat>, iteration: nat)
    requires |s| == 147 && Positions(lookup) && Driveable(s, lookup)
    ensures forall k :: 0 <= k < 147 ==>
              SetSwitches(s, lookup, iteration)[k] == s[k].(state := Switched(iteration, k, s[k].state))
  {
    DriverPositions(lookup);
    var a := SetAll(s, lookup, DataInputs, One, 8);
    forall k | 0 <= k < 147
      ensures a[k] == s[k].(state := if InputAt(1) <= k <= InputAt(8) then One else s[k].state)
    {
      if InputAt(1) <= k <= InputAt(8) {
        assert lookup[DataInputs[k - InputAt(1)]] == k;
      } else {
        assert forall m :: 0 <= m < |DataInputs| ==> lookup[DataInputs[m]] != k;
      }
    }
  }

  /* ---------- the run ---------- */

  /** The clock after n iterations: it starts at 0 and each iteration flips it. */
  function ClockAfter(n: nat): State {
    if n % 2 == 1 then One else Zero
  }

  /** The write switch i after n iterations: only r1's is ever set, to 1 at iteration 2 and
      back to 0 at iteration 4. */
  function WriteAfter(i: nat, n: nat): State {
    if i == 1 && 3 <= n <= 4 then One else Zero
  }

  /** The output switch i after n iterations: r1's is 1 after an even iteration, r2's after an
      odd one, the others are never set. */
  function OutputAfter(i: nat, n: nat): State {
    if n == 0 || i > 2 then Zero else if (i == 1) == (n % 2 == 1) then One else Zero
  }

  /** The data switches after n iterations: 1 from iteration 2 on. */
  function InputAfter(n: nat): State {
    if n >= 3 then One else Zero
  }

  /** Switch i of each bank and line i of the bus after n iterations. */
  predicate BankAfter(s: seq<Component>, i: nat, n: nat)
    requires 1 <= i <= 8
  {
    |s| == 147 &&
    s[WriteAt(i)].state == WriteAfter(i, n) && s[OutputAt(i)].state == OutputAfter(i, n) &&
    s[InputAt(i)].state == InputAfter(n) && s[LineAt(i)].state == X
  }

  /** Bit i of register `reg` after n iterations: the tristate is "x"; the latch is as built
      before the first iteration and holds `q` = 1, `q_` = 0 after any. */
  predicate BitAfter(s: seq<Component>, reg: nat, i: nat, n: nat)
    requires 1 <= i <= 8
  {
    LatchAt(reg, i) + 7 <= |s| && s[LatchAt(reg, i) + 6].state == X &&
    (n == 0 ==> LatchOf(s, LatchAt(reg, i)) == FreshLatch) &&
    (n > 0 ==> s[LatchAt(reg, i) + 3].state == One && s[LatchAt(reg, i) + 5].state == Zero)
  }

  /** The network after n iterations of the loop. */
  predicate Driven(s: seq<Component>, lookup: map<string, nat>, n: nat) {
    Wiring(s, lookup) && Resolvable(s, lookup) && Driveable(s, lookup) &&
    s[0].state == ClockAfter(n) && s[1].state == One && s[2].state == Zero &&
    (forall i :: 1 <= i <= 8 ==> BankAfter(s, i, n)) &&
    (forall reg, i :: 1 <= reg <= 2 && 1 <= i <= 8 ==> BitAfter(s, reg, i, n))
  }

  /** The network as assembled, with the lookup built for it, is the network after no
      iteration. */
  lemma LayoutDriven(s: seq<Component>, lookup: map<string, nat>)
    requires Layout(s) && IsLookupOf(lookup, s)
    ensures Driven(s, lookup, 0)
  {
    LayoutWiring(s, lookup);
    WiringDriveable(s, lookup);
    assert s[0] == Head[0] && s[1] == Head[1] && s[2] == Head[2];
    forall i | 1 <= i <= 8 ensures BankAfter(s, i, 0) {
      assert BanksLayout(s, i);
    }
    forall reg, i | 1 <= reg <= 2 && 1 <= i <= 8 ensures BitAfter(s, reg, i, 0) {
      assert BitLayout(s, reg, i);
      BitFresh(s, reg, i);
    }
  }

  /** A register bit as assembled is a fresh latch followed by a tristate at "x". */
  lemma BitFresh(s: seq<Component>, reg: nat, i: nat)
    requires 1 <= reg <= 2 && 1 <= i <= 8 && BitLayout(s, reg, i)
    ensures BitAfter(s, reg, i, 0)
  {
    var p := LatchAt(reg, i);
    BitGates(s, reg, i);
    DffeComponents(DffeName(RegName(reg), i), "clock", DataInputs[i - 1], WriteEnable(reg));
    assert s[p].state == Zero && s[p + 1].state == Zero && s[p + 2].state == Zero;
    assert s[p + 3].state == Zero && s[p + 4].state == Zero && s[p + 5].state == Zero;
  }

  /** Iteration `before` toggles the clock and sets the switches: the clock takes its value
      after `before` + 1 iterations, the switches change as `Switched` says, and nothing else
      changes. */
  lemma StepSwitches(s: seq<Component>, lookup: map<string, nat>, before: nat)
    requires |s| == 147 && Positions(lookup) && Driveable(s, lookup) && s[0].state == ClockAfter(before)
    ensures var u := Prepare(s, lookup, before);
            |u| == 147 && u[0].state == ClockAfter(before + 1) &&
            forall k :: 1 <= k < 147 ==> u[k] == s[k].(state := Switched(before, k, s[k].state))
  {
    var t := ToggleClock(s, lookup);
    SetSwitchesAt(t, lookup, before);
  }

  /** The start of an iteration leaves every component past the switches as it was. */
  lemma SwitchesKeepRest(s: seq<Component>, lookup: map<string, nat>, before: nat)
    requires |s| == 147 && Positions(lookup) && Driveable(s, lookup) && s[0].state == ClockAfter(before)
    ensures forall k :: InputAt(8) < k < 147 ==> Prepare(s, lookup, before)[k] == s[k]
  {
    StepSwitches(s, lookup, before);
  }

  /** The gated clock `and(clock, write switch)` of a register is known after every iteration,
      and it is 1 only after iteration 2, the one that loads r1, when the data switches are 1. */
  lemma GatedClock(reg: nat, n: nat)
    ensures Gate(And, ClockAfter(n), WriteAfter(reg, n)) != X
    ensures Gate(And, ClockAfter(n), WriteAfter(reg, n)) == One <==> reg == 1 && n == 3
    ensures Gate(And, ClockAfter(n), WriteAfter(reg, n)) == One ==> InputAfter(n) == One
  {
  }

  /** The passes of iteration n - 1 take a gated latch from its state after n - 1 iterations
      to its state after n: with the gated clock at 0 a fresh latch settles at `q` = 1, and a
      latch at `q` = 1 stays there because its gated clock is 0 or its data input is 1. */
  lemma StepLatch(u: seq<Component>, lookup: map<string, nat>, p: nat, clk: string, dIn: string, dEnable: string,
                  reg: nat, n: nat, passes: nat)
    requires Resolvable(u, lookup) && DffeAt(u, lookup, p, clk, dIn, dEnable) && passes >= 1 && n >= 1
    requires Read(u, lookup, clk) == ClockAfter(n) && Read(u, lookup, dIn) == InputAfter(n)
    requires Read(u, lookup, dEnable) == WriteAfter(reg, n)
    requires n == 1 ==> LatchOf(u, p) == FreshLatch
    requires n > 1 ==> u[p + 3].state == One && u[p + 5].state == Zero
    ensures Passes(u, lookup, passes)[p + 3].state == One && Passes(u, lookup, passes)[p + 5].state == Zero
  {
    var c, e, d := ClockAfter(n), WriteAfter(reg, n), InputAfter(n);
    DffePasses(u, lookup, p, clk, dIn, dEnable, passes);
    GatedClock(reg, n);
    if n == 1 {
      LatchSettlesHigh(c, e, d, passes);
    } else {
      LatchStaysHighFor(LatchOf(u, p), c, e, d, passes);
    }
  }

  /** The switches of iteration `before` take switch i of each bank from its value after
      `before` iterations to its value after `before` + 1, and leave bus line i alone. */
  lemma BankSwitched(s: seq<Component>, u: seq<Component>, i: nat, before: nat, n: nat)
    requires 1 <= i <= 8 && n == before + 1 && BankAfter(s, i, before) && |u| == 147
    requires u[WriteAt(i)].state == Switched(before, WriteAt(i), s[WriteAt(i)].state)
    requires u[OutputAt(i)].state == Switched(before, OutputAt(i), s[OutputAt(i)].state)
    requires u[InputAt(i)].state == Switched(before, InputAt(i), s[InputAt(i)].state)
    requires u[LineAt(i)].state == Switched(before, LineAt(i), s[LineAt(i)].state)
    ensures BankAfter(u, i, n)
  {
  }

  /** A bit whose seven components are left as they are keeps the state it had. */
  lemma BitKept(s: seq<Component>, u: seq<Component>, reg: nat, i: nat, before: nat)
    requires 1 <= i <= 8 && BitAfter(s, reg, i, before) && |u| == |s|
    requires forall k :: LatchAt(reg, i) <= k < LatchAt(reg, i) + 7 ==> u[k] == s[k]
    ensures BitAfter(u, reg, i, before)
  {
    var p := LatchAt(reg, i);
    assert u[p] == s[p] && u[p + 1] == s[p + 1] && u[p + 2] == s[p + 2];
    assert u[p + 3] == s[p + 3] && u[p + 4] == s[p + 4] && u[p + 5] == s[p + 5] && u[p + 6] == s[p + 6];
  }

  /** The network of iteration `before` once the clock is toggled and the switches are set,
      before the passes: the clock and the switches hold their values after `before` + 1
      iterations, the latches still their values after `before`. */
  predicate Prepared(u: seq<Component>, lookup: map<string, nat>, before: nat, n: nat) {
    n == before + 1 && Wiring(u, lookup) && Resolvable(u, lookup) && Driveable(u, lookup) &&
    u[0].state == ClockAfter(n) && u[1].state == One && u[2].state == Zero &&
    (forall i :: 1 <= i <= 8 ==> BankAfter(u, i, n)) &&
    (forall reg, i :: 1 <= reg <= 2 && 1 <= i <= 8 ==> BitAfter(u, reg, i, before))
  }

  /** Toggling the clock and setting the switches of iteration `before` brings the switches
      of every bank to their values after n = `before` + 1 iterations. */
  lemma SwitchesBanks(s: seq<Component>, lookup: map<string, nat>, before: nat, n: nat)
    requires n == before + 1 && |s| == 147 && Positions(lookup) && Driveable(s, lookup) && s[0].state == ClockAfter(before)
    requires forall i :: 1 <= i <= 8 ==> BankAfter(s, i, before)
    ensures forall i :: 1 <= i <= 8 ==> BankAfter(Prepare(s, lookup, before), i, n)
  {
    var u := Prepare(s, lookup, before);
    StepSwitches(s, lookup, before);
    forall i | 1 <= i <= 8 ensures BankAfter(u, i, n) {
      BankSwitched(s, u, i, before, n);
    }
  }

  /** Toggling the clock and setting the switches of iteration `before` leaves every bit of
      both registers as it was. */
  lemma SwitchesBits(s: seq<Component>, lookup: map<string, nat>, before: nat)
    requires |s| == 147 && Positions(lookup) && Driveable(s, lookup) && s[0].state == ClockAfter(before)
    requires forall reg, i :: 1 <= reg <= 2 && 1 <= i <= 8 ==> BitAfter(s, reg, i, before)
    ensures forall reg, i :: 1 <= reg <= 2 && 1 <= i <= 8 ==> BitAfter(Prepare(s, lookup, before), reg, i, before)
  {
    var u := Prepare(s, lookup, before);
    SwitchesKeepRest(s, lookup, before);
    forall reg, i | 1 <= reg <= 2 && 1 <= i <= 8 ensures BitAfter(u, reg, i, before) {
      BitKept(s, u, reg, i, before);
    }
  }

  /** Toggling the clock and setting the switches of iteration n - 1 prepares the network
      after n - 1 iterations for the passes of that iteration. */
  lemma SwitchesPrepared(s: seq<Component>, lookup: map<string, nat>, n: nat)
    requires n >= 1 && Driven(s, lookup, n - 1)
    ensures Prepared(Prepare(s, lookup, n - 1), lookup, n - 1, n)
  {
    var before := n - 1;
    var u := Prepare(s, lookup, before);
    StepSwitches(s, lookup, before);
    WiringShape(s, u, lookup);
    WiringDriveable(u, lookup);
    SwitchesBanks(s, lookup, before, n);
    SwitchesBits(s, lookup, before);
  }

  /** The passes of iteration n - 1 take bit i of register `reg` from its state after n - 1
      iterations to its state after n. */
  lemma BitPassed(u: seq<Component>, lookup: map<string, nat>, reg: nat, i: nat, n: nat, passes: nat)
    requires 1 <= reg <= 2 && 1 <= i <= 8 && n >= 1 && passes >= 1
    requires Resolvable(u, lookup) && BitAt(u, lookup, reg, i)
    requires "clock" in lookup && lookup["clock"] == 0
    requires DataInputs[i - 1] in lookup && lookup[DataInputs[i - 1]] == InputAt(i)
    requires WriteEnable(reg) in lookup && lookup[WriteEnable(reg)] == WriteAt(reg)
    requires BitAfter(u, reg, i, n - 1) && BankAfter(u, i, n) && BankAfter(u, reg, n)
    requires u[0].state == ClockAfter(n)
    ensures BitAfter(Passes(u, lookup, passes), reg, i, n)
  {
    var p := LatchAt(reg, i);
    var dIn := DataInputs[i - 1];
    assert Read(u, lookup, "clock") == ClockAfter(n);
    assert Read(u, lookup, dIn) == InputAfter(n);
    assert Read(u, lookup, WriteEnable(reg)) == WriteAfter(reg, n);
    assert DffeAt(u, lookup, p, "clock", dIn, WriteEnable(reg));
    StepLatch(u, lookup, p, "clock", dIn, WriteEnable(reg), reg, n, passes);
    var r := Passes(u, lookup, passes);
    assert !IsBase(u[p + 6].kind);
    BitSettled(u, r, reg, i, n);
  }

  /** A bit whose tristate is unchanged and whose latch holds `q` = 1, `q_` = 0 is as it is
      after n >= 1 iterations. */
  lemma BitSettled(u: seq<Component>, r: seq<Component>, reg: nat, i: nat, n: nat)
    requires 1 <= i <= 8 && n >= 1 && BitAfter(u, reg, i, n - 1) && |r| == |u|
    requires r[LatchAt(reg, i) + 6] == u[LatchAt(reg, i) + 6]
    requires r[LatchAt(reg, i) + 3].state == One && r[LatchAt(reg, i) + 5].state == Zero
    ensures BitAfter(r, reg, i, n)
  {
  }

  /** The passes of iteration n - 1 take the prepared network to the network after n
      iterations: the passes change no switch, tristate or bus line, and the latches come to
      or stay at `q` = 1. */
  lemma PassesDriven(u: seq<Component>, lookup: map<string, nat>, n: nat, passes: nat)
    requires n >= 1 && Prepared(u, lookup, n - 1, n) && passes >= 1
    ensures Driven(Passes(u, lookup, passes), lookup, n)
  {
    var before := n - 1;
    PassesWiring(u, lookup, before, n, passes);
    PassesBanks(u, lookup, before, n, passes);
    PassesBits(u, lookup, before, n, passes);
  }

  /** The passes keep the wiring. */
  lemma PassesWiring(u: seq<Component>, lookup: map<string, nat>, before: nat, n: nat, passes: nat)
    requires Prepared(u, lookup, before, n)
    ensures var r := Passes(u, lookup, passes);
            Wiring(r, lookup) && Resolvable(r, lookup) && Driveable(r, lookup)
  {
    var r := Passes(u, lookup, passes);
    WiringShape(u, r, lookup);
    WiringDriveable(r, lookup);
  }

  /** The passes change neither the clock, the constant lines and the switches nor the bus. */
  lemma PassesBanks(u: seq<Component>, lookup: map<string, nat>, before: nat, n: nat, passes: nat)
    requires Prepared(u, lookup, before, n)
    ensures var r := Passes(u, lookup, passes);
            r[0].state == ClockAfter(n) && r[1].state == One && r[2].state == Zero &&
            forall i :: 1 <= i <= 8 ==> BankAfter(r, i, n)
  {
    var r := Passes(u, lookup, passes);
    forall k | 0 <= k < 27 ensures r[k] == u[k] {
      assert !IsBase(u[k].kind);
    }
    forall i | 1 <= i <= 8 ensures BankAfter(r, i, n) {
      assert BankAfter(u, i, n) && !IsBase(u[LineAt(i)].kind);
      assert r[WriteAt(i)] == u[WriteAt(i)] && r[OutputAt(i)] == u[OutputAt(i)] && r[InputAt(i)] == u[InputAt(i)];
    }
  }

  /** The passes take every bit of both registers from its state after `before` iterations to
      its state after n = `before` + 1. */
  lemma PassesBits(u: seq<Component>, lookup: map<string, nat>, before: nat, n: nat, passes: nat)
    requires Prepared(u, lookup, before, n) && passes >= 1
    ensures forall reg, i :: 1 <= reg <= 2 && 1 <= i <= 8 ==> BitAfter(Passes(u, lookup, passes), reg, i, n)
  {
    DriverPositions(lookup);
    forall reg, i | 1 <= reg <= 2 && 1 <= i <= 8 ensures BitAfter(Passes(u, lookup, passes), reg, i, n) {
      assert DataInputs[i - 1] == DataInputs[(i - 1) + 1 - 1];
      BitPassed(u, lookup, reg, i, n, passes);
    }
  }

  /** Iteration n - 1 takes the network after n - 1 iterations to the network after n. */
  lemma StepDriven(s: seq<Component>, lookup: map<string, nat>, n: nat)
    requires n >= 1 && Driven(s, lookup, n - 1)
    ensures Driven(Step(s, lookup, n - 1), lookup, n)
  {
    SwitchesPrepared(s, lookup, n);
    PassesDriven(Prepare(s, lookup, n - 1), lookup, n, EvalsPerStep);
  }

  /** From a network as it is before the first iteration, n iterations lead to the network
      after n iterations. */
  lemma IterationsDriven(s: seq<Component>, lookup: map<string, nat>, n: nat)
    requires Driven(s, lookup, 0)
    ensures Driven(States(s, lookup, n), lookup, n)
  {
    var k := 0;
    while k < n
      invariant k <= n && Driven(States(s, lookup, k), lookup, k)
    {
      k := k + 1;
      StepDriven(States(s, lookup, k - 1), lookup, k);
    }
  }

  /** After n iterations from the assembled network, the network is as `Driven` says. */
  lemma RunDriven(s: seq<Component>, lookup: map<string, nat>, n: nat)
    requires Layout(s) && IsLookupOf(lookup, s)
    ensures Resolvable(s, lookup) && Driveable(s, lookup)
    ensures Driven(States(s, lookup, n), lookup, n)
  {
    LayoutDriven(s, lookup);
    IterationsDriven(s, lookup, n);
  }

  /* ---------- what the samples show ---------- */

  /** What a sample of the network after n >= 1 iterations shows of the clock and the banks
      of switches: the clock reads 1 exactly when n is odd; the write switch of r1 reads 1
      exactly after 3 and 4 iterations and the other write switches stay 0; the data switches
      read 1 from 3 iterations on; the output switch of r1 reads 1 after an odd number of
      iterations (the last one had an even index), that of r2 after an even number, and the
      others stay 0; every bus line reads "x". */
  lemma SwitchSamples(t: seq<Component>, lookup: map<string, nat>, n: nat)
    requires Driven(t, lookup, n) && n >= 1
    ensures var sample := Snapshot(t, lookup);
            "clock" in sample && (sample["clock"] == One <==> n % 2 == 1) && sample["clock"] != X
    ensures var sample := Snapshot(t, lookup);
            forall i :: 1 <= i <= 8 ==>
              OutputId("write_register_switch", i) in sample &&
              (sample[OutputId("write_register_switch", i)] == One <==> i == 1 && 3 <= n <= 4) &&
              sample[OutputId("write_register_switch", i)] != X
    ensures var sample := Snapshot(t, lookup);
            forall i :: 1 <= i <= 8 ==>
              OutputId("input_switch", i) in sample &&
              (sample[OutputId("input_switch", i)] == One <==> n >= 3) &&
              sample[OutputId("input_switch", i)] != X
    ensures var sample := Snapshot(t, lookup);
            forall i :: 1 <= i <= 8 ==>
              OutputId("output_register_switch", i) in sample &&
              (sample[OutputId("output_register_switch", i)] == One <==>
                 (i == 1 && n % 2 == 1) || (i == 2 && n % 2 == 0)) &&
              sample[OutputId("output_register_switch", i)] != X
    ensures var sample := Snapshot(t, lookup);
            forall i :: 1 <= i <= 8 ==> LineId("data_bus", i) in sample && sample[LineId("data_bus", i)] == X
  {
    var sample := Snapshot(t, lookup);
    assert Positions(lookup) && |t| == 147;
    forall i | 1 <= i <= 8
      ensures OutputId("write_register_switch", i) in sample
      ensures sample[OutputId("write_register_switch", i)] == WriteAfter(i, n)
      ensures OutputId("input_switch", i) in sample && sample[OutputId("input_switch", i)] == InputAfter(n)
      ensures OutputId("output_register_switch", i) in sample
      ensures sample[OutputId("output_register_switch", i)] == OutputAfter(i, n)
      ensures LineId("data_bus", i) in sample && sample[LineId("data_bus", i)] == X
    {
      assert BankPosition(lookup, i) && BankAfter(t, i, n);
    }
  }

  /** What a sample of the network after n >= 1 iterations shows of the registers: `q` of
      every bit of both reads 1 and every tristate reads "x". */
  lemma RegisterSamples(t: seq<Component>, lookup: map<string, nat>, n: nat)
    requires Driven(t, lookup, n) && n >= 1
    ensures RegistersHigh(Snapshot(t, lookup))
  {
    var sample := Snapshot(t, lookup);
    assert Positions(lookup) && |t| == 147;
    forall reg, i | 1 <= reg <= 2 && 1 <= i <= 8
      ensures Qualify(DffeName(RegName(reg), i), "q") in sample
      ensures sample[Qualify(DffeName(RegName(reg), i), "q")] == One
      ensures OutputId(RegName(reg), i) in sample && sample[OutputId(RegName(reg), i)] == X
    {
      assert RegisterPosition(lookup, reg, i) && BitAfter(t, reg, i, n);
    }
  }

  /** Sample k, for each k, is the network after k + 1 iterations. */
  predicate Sampled(samples: seq<Sample>, s: seq<Component>, lookup: map<string, nat>)
    requires Resolvable(s, lookup) && Driveable(s, lookup)
  {
    forall k :: 0 <= k < |samples| ==> samples[k] == Snapshot(States(s, lookup, k + 1), lookup)
  }

  /** Sample k is the snapshot of the network after k + 1 iterations. */
  lemma SampleAt(samples: seq<Sample>, s: seq<Component>, lookup: map<string, nat>, k: nat)
    requires Resolvable(s, lookup) && Driveable(s, lookup) && Sampled(samples, s, lookup)
    requires k < |samples|
    ensures samples[k] == Snapshot(States(s, lookup, k + 1), lookup)
  {
  }

  /** Appending the sample of the next iteration keeps the samples in step with the run. */
  lemma SampledNext(samples: seq<Sample>, s: seq<Component>, lookup: map<string, nat>, t: seq<Component>)
    requires Resolvable(s, lookup) && Driveable(s, lookup) && Sampled(samples, s, lookup)
    requires t == States(s, lookup, |samples| + 1)
    ensures Sampled(samples + [Snapshot(t, lookup)], s, lookup)
  {
    var x := Snapshot(t, lookup);
    var longer := samples + [x];
    forall k | 0 <= k < |longer| ensures longer[k] == Snapshot(States(s, lookup, k + 1), lookup) {
      AppendAt(samples, x, k);
    }
  }

  lemma AppendAt(a: seq<Sample>, x: Sample, k: nat)
    requires k <= |a|
    ensures (a + [x])[k] == if k < |a| then a[k] else x
  {
  }

  /** The loop can run on the assembled network with the lookup built for it. */
  lemma NetworkDriveable(lookup: map<string, nat>)
    requires IsLookupOf(lookup, Network())
    ensures Resolvable(Network(), lookup) && Driveable(Network(), lookup)
  {
    NetworkLayout();
    RunDriven(Network(), lookup, 0);
  }

  /** A sample in which `q` of every bit of r1 and of r2 reads 1 and every `dOut` tristate
      reads "x". */
  predicate RegistersHigh(sample: Sample) {
    forall reg, i :: 1 <= reg <= 2 && 1 <= i <= 8 ==>
      Qualify(DffeName(RegName(reg), i), "q") in sample &&
      sample[Qualify(DffeName(RegName(reg), i), "q")] == One &&
      OutputId(RegName(reg), i) in sample && sample[OutputId(RegName(reg), i)] == X
  }

  /** What the 25 samples of `Run` show of the registers: in every sample `q` of every bit of
      r1 and of r2 reads 1 and every `dOut` tristate reads "x". */
  lemma RunSamples(lookup: map<string, nat>, samples: seq<Sample>)
    requires IsLookupOf(lookup, Network())
    requires Resolvable(Network(), lookup) && Driveable(Network(), lookup)
    requires |samples| == RunFor && Sampled(samples, Network(), lookup)
    ensures forall k :: 0 <= k < |samples| ==> RegistersHigh(samples[k])
  {
    NetworkLayout();
    SampledRegisters(Network(), lookup, samples);
  }

  /** The same for the samples of any run from a list with the network's layout. */
  lemma SampledRegisters(s: seq<Component>, lookup: map<string, nat>, samples: seq<Sample>)
    requires Layout(s) && IsLookupOf(lookup, s)
    requires Resolvable(s, lookup) && Driveable(s, lookup) && Sampled(samples, s, lookup)
    ensures forall k :: 0 <= k < |samples| ==> RegistersHigh(samples[k])
  {
    forall k | 0 <= k < |samples| ensures RegistersHigh(samples[k]) {
      SampleRegisters(s, lookup, samples, k);
    }
  }

  /** Sample k of any run from a list with the network's layout. */
  lemma SampleRegisters(s: seq<Component>, lookup: map<string, nat>, samples: seq<Sample>, k: nat)
    requires Layout(s) && IsLookupOf(lookup, s) && Resolvable(s, lookup) && Driveable(s, lookup)
    requires Sampled(samples, s, lookup) && k < |samples|
    ensures RegistersHigh(samples[k])
  {
    var t := States(s, lookup, k + 1);
    SampleAt(samples, s, lookup, k);
    RunDriven(s, lookup, k + 1);
    RegisterSamples(t, lookup, k + 1);
  }

  /* ---------- the loop over the array ---------- */

  /** `componentLookup[id].state = v` on the array of components. */
  method SetSwitch(components: array<Component>, lookup: map<string, nat>, id: string, v: State)
    requires Known(components[..], lookup, id)
    modifies components
    ensures components[..] == SetState(old(components[..]), lookup, id, v)
  {
    var k := lookup[id];
    components[k] := components[k].(state := v);
  }

  /** `if (clock.state !== "x") clock.state = not(clock.state)` on the array. */
  method FlipClock(components: array<Component>, lookup: map<string, nat>)
    requires Known(components[..], lookup, "clock")
    modifies components
    ensures components[..] == ToggleClock(old(components[..]), lookup)
  {
    var clock := components[lookup["clock"]].state;
    if clock != X {
      SetSwitch(components, lookup, "clock", Gates.Not(clock));
    }
  }

  /** The eight assignments `input_switch.dOut1` ... `dOut8` = 1 of iteration 2, in order. */
  method LoadInputs(components: array<Component>, lookup: map<string, nat>)
    requires forall m :: 0 <= m < |DataInputs| ==> DataInputs[m] in lookup && lookup[DataInputs[m]] < components.Length
    modifies components
    ensures components[..] == SetAll(old(components[..]), lookup, DataInputs, One, 8)
  {
    ghost var before := components[..];
    SetSwitch(components, lookup, DataInputs[0], One);
    assert components[..] == SetAll(before, lookup, DataInputs, One, 1);
    SetSwitch(components, lookup, DataInputs[1], One);
    assert components[..] == SetAll(before, lookup, DataInputs, One, 2);
    SetSwitch(components, lookup, DataInputs[2], One);
    assert components[..] == SetAll(before, lookup, DataInputs, One, 3);
    SetSwitch(components, lookup, DataInputs[3], One);
    assert components[..] == SetAll(before, lookup, DataInputs, One, 4);
    SetSwitch(components, lookup, DataInputs[4], One);
    assert components[..] == SetAll(before, lookup, DataInputs, One, 5);
    SetSwitch(components, lookup, DataInputs[5], One);
    assert components[..] == SetAll(before, lookup, DataInputs, One, 6);
    SetSwitch(components, lookup, DataInputs[6], One);
    assert components[..] == SetAll(before, lookup, DataInputs, One, 7);
    SetSwitch(components, lookup, DataInputs[7], One);
    assert components[..] == SetAll(before, lookup, DataInputs, One, 8);
  }

  /** The switch assignments of iteration `iteration` on the array, in the loop's order. */
  method ApplySwitches(components: array<Component>, lookup: map<string, nat>, iteration: nat)
    requires Driveable(components[..], lookup)
    modifies components
    ensures components[..] == SetSwitches(old(components[..]), lookup, iteration)
  {
    if iteration == 2 {
      LoadInputs(components, lookup);
      SetSwitch(components, lookup, WriteEnable(1), One);
    } else if iteration == 4 {
      SetSwitch(components, lookup, WriteEnable(1), Zero);
    }
    if iteration % 2 == 0 {
      SetSwitch(components, lookup, OutputEnable(1), One);
      SetSwitch(components, lookup, OutputEnable(2), Zero);
    } else {
      SetSwitch(components, lookup, OutputEnable(1), Zero);
      SetSwitch(components, lookup, OutputEnable(2), One);
    }
  }

  /** The body of the loop for iteration `iteration`: toggle the clock, set the switches and
      call `evaluate` `EVALS_PER_STEP` times. */
  method Iterate(components: array<Component>, lookup: map<string, nat>, iteration: nat)
    requires Resolvable(components[..], lookup) && Driveable(components[..], lookup)
    modifies components
    ensures components[..] == Step(old(components[..]), lookup, iteration)
  {
    FlipClock(components, lookup);
    ApplySwitches(components, lookup, iteration);
    ghost var switched := components[..];
    ResolvableShape(old(components[..]), switched, lookup);
    for i := 0 to EvalsPerStep
      invariant components[..] == Passes(switched, lookup, i)
    {
      Evaluate(components, lookup);
    }
  }

  /** The loop of 8bit-computer.ts over the array built from `list`: `runFor` iterations, each
      followed by a sample. The array ends as the network after `runFor` iterations, and
      sample k is the network after k + 1 iterations. */
  method Simulate(list: seq<Component>, lookup: map<string, nat>) returns (components: array<Component>, samples: seq<Sample>)
    requires Resolvable(list, lookup) && Driveable(list, lookup)
    ensures components[..] == States(list, lookup, RunFor)
    ensures |samples| == RunFor && Sampled(samples, list, lookup)
  {
    components := new Component[|list|](i requires 0 <= i < |list| => list[i]);
    assert components[..] == list;
    samples := [];
    for iteration := 0 to RunFor
      invariant components[..] == States(list, lookup, iteration)
      invariant |samples| == iteration && Sampled(samples, list, lookup)
    {
      Iterate(components, lookup, iteration);
      assert components[..] == States(list, lookup, iteration + 1);
      SampledNext(samples, list, lookup, components[..]);
      samples := samples + [Snapshot(components[..], lookup)];
    }
  }

  /** The script of 8bit-computer.ts: assemble the network, build its lookup and run the loop. */
  method Run() returns (components: array<Component>, lookup: map<string, nat>, samples: seq<Sample>)
    ensures IsLookupOf(lookup, Network())
    ensures Resolvable(Network(), lookup) && Driveable(Network(), lookup)
    ensures components[..] == States(Network(), lookup, RunFor)
    ensures |samples| == RunFor && Sampled(samples, Network(), lookup)
  {
    var list := AssembleComponents();
    lookup := CreateComponentLookup(list);
    NetworkDriveable(lookup);
    components, samples := Simulate(list, lookup);
  }
}
