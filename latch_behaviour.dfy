/** How passes of `evaluate` act on a gated latch built by `createDFFEComponent`
    (mod.ts:70-84 evaluated by mod.ts:95-125): one pass over its six components
    is a function of the latch's own states and of the three signals it reads
    from outside, and from that function follow the latch's behaviours: it
    follows its data input while clock and enable are 1, and holds otherwise. */
module LatchBehaviour {
  import opened Components
  import opened Names
  import Gates
  import opened Latches
  import opened Engine

  /** The states of the six components of a gated latch, in the order the builder emits them. */
  datatype Latch = Latch(clk: State, notDIn: State, dNandA: State, q: State, dNandC: State, qBar: State)

  function LatchOf(s: seq<Component>, p: nat): Latch
    requires p + 6 <= |s|
  {
    Latch(s[p].state, s[p + 1].state, s[p + 2].state, s[p + 3].state, s[p + 4].state, s[p + 5].state)
  }

  /** The latch after one pass when its clock, enable and data inputs read `clk`, `enable`
      and `d`. Each component reads the ones before it with their new value; `q` reads `q_`
      with its value from before the pass. */
  function LatchStep(l: Latch, clk: State, enable: State, d: State): Latch {
    var gated := Gate(And, clk, enable);
    var notDIn := Gate(Not, d, d);
    var dNandA := Gate(Nand, d, gated);
    var q := Gate(Nand, dNandA, l.qBar);
    var dNandC := Gate(Nand, notDIn, gated);
    Latch(gated, notDIn, dNandA, q, dNandC, Gate(Nand, dNandC, q))
  }

  function LatchSteps(l: Latch, clk: State, enable: State, d: State, n: nat): Latch {
    if n == 0 then l else LatchStep(LatchSteps(l, clk, enable, d, n - 1), clk, enable, d)
  }

  /** The component `id` exists and is not a gate, so no pass changes it. */
  predicate Feeder(s: seq<Component>, lookup: map<string, nat>, id: string) {
    id in lookup && lookup[id] < |s| && !IsBase(s[lookup[id]].kind)
  }

  /** The lookup leads the id of component j back to j. */
  predicate Indexed(s: seq<Component>, lookup: map<string, nat>, j: nat) {
    j < |s| && s[j].id in lookup && lookup[s[j].id] == j
  }

  /** Indices p .. p + 5 hold six gates wired as `createDFFEComponent` wires them (with any
      states), the lookup leads their ids there, and the three signals they read from outside
      are components that are not gates. */
  predicate DffeAt(s: seq<Component>, lookup: map<string, nat>, p: nat, clk: string, dIn: string, dEnable: string) {
    p + 6 <= |s| &&
    Feeder(s, lookup, clk) && Feeder(s, lookup, dIn) && Feeder(s, lookup, dEnable) &&
    s[p].kind == And && s[p].inputs == [clk, dEnable] &&
    s[p + 1].kind == Not && s[p + 1].inputs == [dIn] &&
    s[p + 2].kind == Nand && s[p + 2].inputs == [dIn, s[p].id] &&
    s[p + 3].kind == Nand && s[p + 3].inputs == [s[p + 2].id, s[p + 5].id] &&
    s[p + 4].kind == Nand && s[p + 4].inputs == [s[p + 1].id, s[p].id] &&
    s[p + 5].kind == Nand && s[p + 5].inputs == [s[p + 4].id, s[p + 3].id] &&
    Indexed(s, lookup, p) && Indexed(s, lookup, p + 1) && Indexed(s, lookup, p + 2) &&
    Indexed(s, lookup, p + 3) && Indexed(s, lookup, p + 4) && Indexed(s, lookup, p + 5)
  }

  /** The six components of `createDFFEComponent(name, clk, dIn, dEnable)`, placed at p with the
      lookup leading to them and non-gate feeders, are a gated latch at p. */
  lemma DffeIsAt(s: seq<Component>, lookup: map<string, nat>, p: nat,
                 name: string, clk: string, dIn: string, dEnable: string)
    requires p + 6 <= |s| && Feeder(s, lookup, clk) && Feeder(s, lookup, dIn) && Feeder(s, lookup, dEnable)
    requires forall j :: p <= j < p + 6 ==> s[j] == Dffe(name, clk, dIn, dEnable)[j - p]
    requires forall j :: p <= j < p + 6 ==> Indexed(s, lookup, j)
    ensures DffeAt(s, lookup, p, clk, dIn, dEnable)
  {
    var g := Dffe(name, clk, dIn, dEnable);
    DffeComponents(name, clk, dIn, dEnable);
    assert s[p] == g[0] && s[p + 1] == g[1] && s[p + 2] == g[2];
    assert s[p + 3] == g[3] && s[p + 4] == g[4] && s[p + 5] == g[5];
    assert Indexed(s, lookup, p) && Indexed(s, lookup, p + 1) && Indexed(s, lookup, p + 2);
    assert Indexed(s, lookup, p + 3) && Indexed(s, lookup, p + 4) && Indexed(s, lookup, p + 5);
    assert s[p].id == g[0].id && s[p + 1].id == g[1].id && s[p + 2].id == g[2].id;
    assert s[p + 3].id == g[3].id && s[p + 4].id == g[4].id && s[p + 5].id == g[5].id;
    assert s[p].inputs == g[0].inputs && s[p + 1].inputs == g[1].inputs && s[p + 2].inputs == g[2].inputs;
    assert s[p + 3].inputs == g[3].inputs && s[p + 4].inputs == g[4].inputs && s[p + 5].inputs == g[5].inputs;
  }

  lemma DffeAtShape(s: seq<Component>, t: seq<Component>, lookup: map<string, nat>, p: nat,
                    clk: string, dIn: string, dEnable: string)
    requires SameShape(t, s) && DffeAt(s, lookup, p, clk, dIn, dEnable)
    ensures DffeAt(t, lookup, p, clk, dIn, dEnable)
  {
    assert t[p].id == s[p].id && t[p + 1].id == s[p + 1].id && t[p + 2].id == s[p + 2].id;
    assert t[p + 3].id == s[p + 3].id && t[p + 4].id == s[p + 4].id && t[p + 5].id == s[p + 5].id;
    assert t[p].inputs == s[p].inputs && t[p + 1].inputs == s[p + 1].inputs && t[p + 2].inputs == s[p + 2].inputs;
    assert t[p + 3].inputs == s[p + 3].inputs && t[p + 4].inputs == s[p + 4].inputs && t[p + 5].inputs == s[p + 5].inputs;
    assert t[lookup[clk]].kind == s[lookup[clk]].kind && t[lookup[dIn]].kind == s[lookup[dIn]].kind;
    assert t[lookup[dEnable]].kind == s[lookup[dEnable]].kind;
  }

  /** The state component `id` has when index j is visited during the pass from `s` to `r`. */
  function Visible(s: seq<Component>, r: seq<Component>, lookup: map<string, nat>, j: nat, id: string): State
    requires |r| == |s| && id in lookup && lookup[id] < |s|
  {
    if lookup[id] < j then r[lookup[id]].state else s[lookup[id]].state
  }

  /** `PassAt` for a gate, stated with `Visible`. */
  lemma GateAt(s: seq<Component>, lookup: map<string, nat>, j: nat)
    requires Resolvable(s, lookup) && j < |s| && IsBase(s[j].kind)
    ensures var r := Pass(s, lookup);
            var a := Visible(s, r, lookup, j, s[j].inputs[0]);
            r[j].state == Gate(s[j].kind, a, if s[j].kind == Not then a else Visible(s, r, lookup, j, s[j].inputs[1]))
  {
    var r := Pass(s, lookup);
    PassAt(s, lookup, j);
    var m := r[..j] + s[j..];
    assert Read(m, lookup, s[j].inputs[0]) == Visible(s, r, lookup, j, s[j].inputs[0]);
    if s[j].kind != Not {
      assert Read(m, lookup, s[j].inputs[1]) == Visible(s, r, lookup, j, s[j].inputs[1]);
    }
  }

  /** One pass over a network holding a gated latch acts on the latch as `LatchStep`, with
      the clock, enable and data signals the network holds. */
  lemma DffePass(s: seq<Component>, lookup: map<string, nat>, p: nat,
                 clk: string, dIn: string, dEnable: string)
    requires Resolvable(s, lookup) && DffeAt(s, lookup, p, clk, dIn, dEnable)
    ensures LatchOf(Pass(s, lookup), p) ==
            LatchStep(LatchOf(s, p), Read(s, lookup, clk), Read(s, lookup, dEnable), Read(s, lookup, dIn))
  {
    var r := Pass(s, lookup);
    LatchGate(s, lookup, p, clk, dIn, dEnable, 0);
    LatchGate(s, lookup, p, clk, dIn, dEnable, 1);
    LatchGate(s, lookup, p, clk, dIn, dEnable, 2);
    LatchGate(s, lookup, p, clk, dIn, dEnable, 3);
    LatchGate(s, lookup, p, clk, dIn, dEnable, 4);
    LatchGate(s, lookup, p, clk, dIn, dEnable, 5);
  }

  /** Gate k of a gated latch after a pass: each gate reads the outside signals, which a pass
      keeps, the gates before it with their new states, and `q` reads `q_` from before. */
  lemma LatchGate(s: seq<Component>, lookup: map<string, nat>, p: nat,
                  clk: string, dIn: string, dEnable: string, k: nat)
    requires Resolvable(s, lookup) && DffeAt(s, lookup, p, clk, dIn, dEnable) && k < 6
    ensures var r := Pass(s, lookup);
            var (c, e, d) := (Read(s, lookup, clk), Read(s, lookup, dEnable), Read(s, lookup, dIn));
            r[p + k].state ==
              if k == 0 then Gate(And, c, e)
              else if k == 1 then Gate(Not, d, d)
              else if k == 2 then Gate(Nand, d, r[p].state)
              else if k == 3 then Gate(Nand, r[p + 2].state, s[p + 5].state)
              else if k == 4 then Gate(Nand, r[p + 1].state, r[p].state)
              else Gate(Nand, r[p + 4].state, r[p + 3].state)
  {
    PassKeepsFeeders(s, lookup, clk, dIn, dEnable);
    GateAt(s, lookup, p + k);
  }

  /** A pass keeps the states of the three signals a gated latch reads from outside. */
  lemma PassKeepsFeeders(s: seq<Component>, lookup: map<string, nat>, clk: string, dIn: string, dEnable: string)
    requires Resolvable(s, lookup) && Feeder(s, lookup, clk) && Feeder(s, lookup, dIn) && Feeder(s, lookup, dEnable)
    ensures var r := Pass(s, lookup);
            r[lookup[clk]] == s[lookup[clk]] && r[lookup[dEnable]] == s[lookup[dEnable]] &&
            r[lookup[dIn]] == s[lookup[dIn]]
  {
  }

  /** Clock and enable at 1 and a known data value `d`: one pass drives `q` to 1 when `d` is 1,
      and `q_` to 1 when `d` is 0, so after two passes `q` is `d` and `q_` is `not d`,
      whatever known value `q_` held before. */
  lemma LatchFollows(l: Latch, d: ValidState)
    requires l.qBar != X
    ensures var l2 := LatchSteps(l, One, One, d, 2);
            l2.q == d && l2.qBar == Gates.Not(d)
  {
    var l1 := LatchStep(l, One, One, d);
    assert LatchSteps(l, One, One, d, 1) == l1;
    assert l1.notDIn == Gates.Not(d) && l1.clk == One;
    assert d == One ==> l1.q == One && l1.qBar == Zero;
    assert d == Zero ==> l1.qBar == One && l1.q != X;
  }

  /** While clock and enable stay at 1, a latch that follows `d` keeps following it. */
  lemma {:induction false} LatchKeepsFollowing(l: Latch, d: ValidState, n: nat)
    requires l.qBar != X && n >= 2
    ensures var ln := LatchSteps(l, One, One, d, n);
            ln.q == d && ln.qBar == Gates.Not(d)
  {
    if n == 2 {
      LatchFollows(l, d);
    } else {
      LatchKeepsFollowing(l, d, n - 1);
    }
  }

  /** With the gated clock at 0 and a known data value, a pass sets `q` to `not q_` and keeps
      `q_`; so a latch whose `q_` is `not q` holds both, whatever its data input is. */
  lemma LatchHolds(l: Latch, clk: State, enable: State, d: ValidState)
    requires Gate(And, clk, enable) == Zero && l.qBar != X
    ensures var l1 := LatchStep(l, clk, enable, d);
            l1.q == Gates.Not(l.qBar) && l1.qBar == l.qBar
  {
  }

  /** Held for any number of passes. */
  lemma {:induction false} LatchHoldsForever(l: Latch, clk: State, enable: State, d: ValidState, n: nat)
    requires Gate(And, clk, enable) == Zero && l.qBar != X && l.q == Gates.Not(l.qBar)
    ensures var ln := LatchSteps(l, clk, enable, d, n);
            ln.q == l.q && ln.qBar == l.qBar
  {
    if n > 0 {
      LatchHoldsForever(l, clk, enable, d, n - 1);
      LatchHolds(LatchSteps(l, clk, enable, d, n - 1), clk, enable, d);
    }
  }

  /** The states the builder gives a latch: every component at 0. */
  const FreshLatch := Latch(Zero, Zero, Zero, Zero, Zero, Zero)

  /** A fresh latch whose gated clock is 0 comes to `q` = 1, `q_` = 0 in one pass: it does not
      read 0 before anything was written to it. */
  lemma LatchStartsHigh(clk: State, enable: State, d: ValidState)
    requires Gate(And, clk, enable) == Zero
    ensures LatchStep(FreshLatch, clk, enable, d).q == One
    ensures LatchStep(FreshLatch, clk, enable, d).qBar == Zero
  {
    LatchHolds(FreshLatch, clk, enable, d);
  }

  /** A latch at `q` = 1, `q_` = 0 stays there through a pass exactly when the pass does not
      load a 0 into it: the gated clock is 0, or it is 1 with data 1 (data known in both). */
  lemma LatchStaysHigh(l: Latch, clk: State, enable: State, d: State)
    requires l.q == One && l.qBar == Zero && d != X && Gate(And, clk, enable) != X
    ensures var l1 := LatchStep(l, clk, enable, d);
            (l1.q == One && l1.qBar == Zero) <==> (Gate(And, clk, enable) == Zero || d == One)
  {
  }

  /** ... and through any number of passes with the same signals. */
  lemma {:induction false} LatchStaysHighFor(l: Latch, clk: State, enable: State, d: State, n: nat)
    requires l.q == One && l.qBar == Zero && d != X && Gate(And, clk, enable) != X
    requires Gate(And, clk, enable) == Zero || d == One
    ensures LatchSteps(l, clk, enable, d, n).q == One && LatchSteps(l, clk, enable, d, n).qBar == Zero
  {
    if n > 0 {
      LatchStaysHighFor(l, clk, enable, d, n - 1);
      LatchStaysHigh(LatchSteps(l, clk, enable, d, n - 1), clk, enable, d);
    }
  }

  /** `n` steps are one step followed by `n - 1` more. */
  lemma {:induction false} LatchStepsFirst(l: Latch, clk: State, enable: State, d: State, n: nat)
    requires n >= 1
    ensures LatchSteps(l, clk, enable, d, n) == LatchSteps(LatchStep(l, clk, enable, d), clk, enable, d, n - 1)
  {
    if n > 1 {
      LatchStepsFirst(l, clk, enable, d, n - 1);
    }
  }

  /** A fresh latch whose gated clock stays 0 reads `q` = 1, `q_` = 0 after one or more passes. */
  lemma LatchSettlesHigh(clk: State, enable: State, d: ValidState, n: nat)
    requires Gate(And, clk, enable) == Zero && n >= 1
    ensures LatchSteps(FreshLatch, clk, enable, d, n).q == One
    ensures LatchSteps(FreshLatch, clk, enable, d, n).qBar == Zero
  {
    LatchStepsFirst(FreshLatch, clk, enable, d, n);
    LatchStartsHigh(clk, enable, d);
    LatchStaysHighFor(LatchStep(FreshLatch, clk, enable, d), clk, enable, d, n - 1);
  }

  /** `n` passes over a network holding a gated latch whose clock, enable and data components
      are not gates act on the latch as `n` latch steps with the signals the network holds. */
  lemma {:induction false} DffePasses(s: seq<Component>, lookup: map<string, nat>, p: nat,
                                      clk: string, dIn: string, dEnable: string, n: nat)
    requires Resolvable(s, lookup) && DffeAt(s, lookup, p, clk, dIn, dEnable)
    ensures LatchOf(Passes(s, lookup, n), p) ==
            LatchSteps(LatchOf(s, p), Read(s, lookup, clk), Read(s, lookup, dEnable), Read(s, lookup, dIn), n)
  {
    if n > 0 {
      var c, e, d := Read(s, lookup, clk), Read(s, lookup, dEnable), Read(s, lookup, dIn);
      var m := n - 1;
      var l := LatchSteps(LatchOf(s, p), c, e, d, m);
      DffePasses(s, lookup, p, clk, dIn, dEnable, m);
      DffePassesNext(s, lookup, p, clk, dIn, dEnable, m, l);
      LatchStepsNext(LatchOf(s, p), c, e, d, m);
      assert n == m + 1;
    }
  }

  lemma LatchStepsNext(l: Latch, clk: State, enable: State, d: State, m: nat)
    ensures LatchSteps(l, clk, enable, d, m + 1) == LatchStep(LatchSteps(l, clk, enable, d, m), clk, enable, d)
  {
  }

  /** Passes keep a gated latch wired as it is and the three signals it reads. */
  lemma PassesKeepDffe(s: seq<Component>, lookup: map<string, nat>, p: nat,
                       clk: string, dIn: string, dEnable: string, n: nat)
    requires Resolvable(s, lookup) && DffeAt(s, lookup, p, clk, dIn, dEnable)
    ensures var t := Passes(s, lookup, n);
            DffeAt(t, lookup, p, clk, dIn, dEnable) && Read(t, lookup, clk) == Read(s, lookup, clk) &&
            Read(t, lookup, dEnable) == Read(s, lookup, dEnable) && Read(t, lookup, dIn) == Read(s, lookup, dIn)
  {
    var t := Passes(s, lookup, n);
    DffeAtShape(s, t, lookup, p, clk, dIn, dEnable);
    assert t[lookup[clk]] == s[lookup[clk]] && t[lookup[dEnable]] == s[lookup[dEnable]];
    assert t[lookup[dIn]] == s[lookup[dIn]];
  }

  /** The pass after the first m moves the latch by one more `LatchStep`. */
  lemma DffePassesNext(s: seq<Component>, lookup: map<string, nat>, p: nat,
                       clk: string, dIn: string, dEnable: string, m: nat, l: Latch)
    requires Resolvable(s, lookup) && DffeAt(s, lookup, p, clk, dIn, dEnable)
    requires LatchOf(Passes(s, lookup, m), p) == l
    ensures LatchOf(Passes(s, lookup, m + 1), p) ==
            LatchStep(l, Read(s, lookup, clk), Read(s, lookup, dEnable), Read(s, lookup, dIn))
  {
    var t := Passes(s, lookup, m);
    PassesKeepDffe(s, lookup, p, clk, dIn, dEnable, m);
    DffePass(t, lookup, p, clk, dIn, dEnable);
  }

  /** A gated latch whose clock and enable read 1, whose data input is known and whose `q_` is
      known holds its data input in `q` and its negation in `q_` after any two or more passes,
      whatever the rest of the network holds. */
  lemma DffeFollowsData(s: seq<Component>, lookup: map<string, nat>, p: nat,
                        clk: string, dIn: string, dEnable: string, n: nat)
    requires Resolvable(s, lookup) && DffeAt(s, lookup, p, clk, dIn, dEnable)
    requires Read(s, lookup, dIn) != X && s[p + 5].state != X
    requires Read(s, lookup, clk) == One && Read(s, lookup, dEnable) == One && n >= 2
    ensures Passes(s, lookup, n)[p + 3].state == Read(s, lookup, dIn)
    ensures Passes(s, lookup, n)[p + 5].state == Gates.Not(Read(s, lookup, dIn))
  {
    DffePasses(s, lookup, p, clk, dIn, dEnable, n);
    LatchKeepsFollowing(LatchOf(s, p), Read(s, lookup, dIn), n);
  }

  /** A latch whose `q_` is "x" stays at "x" in `q` and `q_` for any number of steps, whatever
      its clock, enable and data: `q` reads the old `q_`, and `q_` reads the new `q`. */
  lemma {:induction false} LatchStuckUnknown(l: Latch, clk: State, enable: State, d: State, n: nat)
    requires l.qBar == X
    ensures n >= 1 ==> LatchSteps(l, clk, enable, d, n).q == X
    ensures LatchSteps(l, clk, enable, d, n).qBar == X
  {
    if n > 0 {
      LatchStuckUnknown(l, clk, enable, d, n - 1);
    }
  }

  /** So the known `q_` that `DffeFollowsData` asks for cannot be dropped: a gated latch whose
      `q_` reads "x" keeps `q` and `q_` at "x" through every pass, even with clock, enable and
      data all known. */
  lemma DffeStuckUnknown(s: seq<Component>, lookup: map<string, nat>, p: nat,
                         clk: string, dIn: string, dEnable: string, n: nat)
    requires Resolvable(s, lookup) && DffeAt(s, lookup, p, clk, dIn, dEnable)
    requires s[p + 5].state == X && n >= 1
    ensures Passes(s, lookup, n)[p + 3].state == X && Passes(s, lookup, n)[p + 5].state == X
  {
    DffePasses(s, lookup, p, clk, dIn, dEnable, n);
    LatchStuckUnknown(LatchOf(s, p), Read(s, lookup, clk), Read(s, lookup, dEnable), Read(s, lookup, dIn), n);
  }

  /** A gated latch whose gated clock reads 0 and whose `q_` is `not q` keeps `q` and `q_`
      through any number of passes, whatever its known data input is. */
  lemma DffeHolds(s: seq<Component>, lookup: map<string, nat>, p: nat,
                  clk: string, dIn: string, dEnable: string, n: nat)
    requires Resolvable(s, lookup) && DffeAt(s, lookup, p, clk, dIn, dEnable)
    requires Gate(And, Read(s, lookup, clk), Read(s, lookup, dEnable)) == Zero
    requires Read(s, lookup, dIn) != X && s[p + 5].state != X && s[p + 3].state == Gates.Not(s[p + 5].state)
    ensures Passes(s, lookup, n)[p + 3].state == s[p + 3].state
    ensures Passes(s, lookup, n)[p + 5].state == s[p + 5].state
  {
    DffePasses(s, lookup, p, clk, dIn, dEnable, n);
    LatchHoldsForever(LatchOf(s, p), Read(s, lookup, clk), Read(s, lookup, dEnable), Read(s, lookup, dIn), n);
  }

  /** A gated latch as the builder leaves it, all states 0, with its gated clock reading 0 and a
      known data input, has `q` = 1 and `q_` = 0 after one pass. */
  lemma DffeStartsHigh(s: seq<Component>, lookup: map<string, nat>, p: nat,
                       clk: string, dIn: string, dEnable: string)
    requires Resolvable(s, lookup) && DffeAt(s, lookup, p, clk, dIn, dEnable)
    requires LatchOf(s, p) == FreshLatch && Read(s, lookup, dIn) != X
    requires Gate(And, Read(s, lookup, clk), Read(s, lookup, dEnable)) == Zero
    ensures Pass(s, lookup)[p + 3].state == One && Pass(s, lookup)[p + 5].state == Zero
  {
    DffePass(s, lookup, p, clk, dIn, dEnable);
    LatchStartsHigh(Read(s, lookup, clk), Read(s, lookup, dEnable), Read(s, lookup, dIn));
  }
}
