/** The three wiring builders of 8bit-computer.ts: an 8-bit register of gated
    latches with a tristate output per bit, a bank of eight DIP switches and an
    8-line data bus. Each builder is a loop that appends to a local list; each
    is proved equal to a recursive function giving the layout of the list, and
    the lemmas below say which ids a bank holds and what it reads. */
module Computer {
  import opened Components
  import opened Names
  import opened Latches

  /** `${name}.dOut${i}`: a switch output, or the tristate output of a register bit. */
  function OutputId(name: string, i: nat): string
    requires 1 <= i <= 8
  {
    Qualify(name, "dOut" + IndexText(i))
  }

  /** `${name}.dffe${i}`: the name of the gated latch holding bit i of a register. */
  function DffeName(name: string, i: nat): string
    requires 1 <= i <= 8
  {
    Qualify(name, "dffe" + IndexText(i))
  }

  /** `${name}.d${i}`: line i of a data bus. */
  function LineId(name: string, i: nat): string
    requires 1 <= i <= 8
  {
    Qualify(name, "d" + IndexText(i))
  }

  /** The three numbered ids lie in the group `name` and carry the digit of i at a fixed
      offset; 'O' (of `dOut`) and 'f' (of `dffe`) tell the first two apart. */
  lemma NumberedIdShape(name: string, i: nat)
    requires 1 <= i <= 8
    ensures var id := OutputId(name, i);
            InGroup(id, name) && |id| == |name| + 6 && id[|name| + 5] == IndexText(i)[0] && id[|name| + 2] == 'O'
    ensures var n := DffeName(name, i);
            InGroup(n, name) && |n| == |name| + 6 && n[|name| + 5] == IndexText(i)[0] && n[|name| + 2] == 'f'
    ensures var id := LineId(name, i);
            InGroup(id, name) && |id| == |name| + 3 && id[|name| + 2] == IndexText(i)[0]
  {
    QualifyInGroup(name, "dOut" + IndexText(i));
    QualifyInGroup(name, "dffe" + IndexText(i));
    QualifyInGroup(name, "d" + IndexText(i));
  }

  lemma OutputIdInjective(name: string, i: nat, j: nat)
    requires 1 <= i <= 8 && 1 <= j <= 8
    ensures OutputId(name, i) == OutputId(name, j) <==> i == j
  {
    if OutputId(name, i) == OutputId(name, j) {
      NumberedIdShape(name, i);
      NumberedIdShape(name, j);
      IndexTextInjective(i, j);
    }
  }

  /* ---------- create8BitDipSwitchComponent ---------- */

  /** The switch `${name}.dOut${i}`: driven from outside, no inputs, initially 0. */
  function Switch(name: string, i: nat): Component
    requires 1 <= i <= 8
  {
    Component(OutputId(name, i), Custom, [], Zero)
  }

  /** The first n switches of a bank. */
  function DipSwitch(name: string, n: nat): (r: seq<Component>)
    requires n <= 8
    ensures |r| == n
  {
    if n == 0 then [] else DipSwitch(name, n - 1) + [Switch(name, n)]
  }

  /** Component k of a bank is switch k + 1. */
  lemma {:induction false} DipSwitchAt(name: string, n: nat)
    requires n <= 8
    ensures forall k :: 0 <= k < n ==> DipSwitch(name, n)[k] == Switch(name, k + 1)
  {
    if n > 0 {
      DipSwitchAt(name, n - 1);
      assert forall k :: 0 <= k < n - 1 ==> DipSwitch(name, n)[k] == DipSwitch(name, n - 1)[k];
    }
  }

  /** `create8BitDipSwitchComponent(name)`. */
  method Create8BitDipSwitchComponent(name: string) returns (components: seq<Component>)
    ensures components == DipSwitch(name, 8)
  {
    components := [];
    for i := 1 to 9
      invariant components == DipSwitch(name, i - 1)
    {
      components := components + [Component(OutputId(name, i), Custom, [], Zero)];
    }
  }

  /* ---------- create8BitMemoryComponent ---------- */

  /** The tristate `${name}.dOut${i}` reading bit i's `q` and the output enable; it starts "x". */
  function Tristate(name: string, dOutput: string, i: nat): Component
    requires 1 <= i <= 8
  {
    Component(OutputId(name, i), TriState, [Qualify(DffeName(name, i), "q"), dOutput], X)
  }

  /** The seven components the loop of `create8BitMemoryComponent` appends for bit i. */
  function MemoryCell(name: string, clk: string, dEnable: string, dOutput: string, dIn: string, i: nat): (r: seq<Component>)
    requires 1 <= i <= 8
    ensures |r| == 7
  {
    Dffe(DffeName(name, i), clk, dIn, dEnable) + [Tristate(name, dOutput, i)]
  }

  /** Bit i is the gated latch `${name}.dffe${i}` followed by its tristate. */
  lemma CellShape(name: string, clk: string, dEnable: string, dOutput: string, dIn: string, i: nat)
    requires 1 <= i <= 8
    ensures var r := MemoryCell(name, clk, dEnable, dOutput, dIn, i);
            (forall k :: 0 <= k < 6 ==> r[k] == Dffe(DffeName(name, i), clk, dIn, dEnable)[k]) &&
            r[6] == Tristate(name, dOutput, i)
  {
  }

  /** Bit i's seven components in a register list. */
  function Slot(r: seq<Component>, i: nat): seq<Component>
    requires 1 <= i && 7 * i <= |r|
  {
    r[7 * (i - 1)..7 * i]
  }

  lemma SlotsOfAppend(a: seq<Component>, b: seq<Component>, m: nat)
    requires |a| == 7 * m && |b| == 7
    ensures forall i :: 1 <= i <= m ==> Slot(a + b, i) == Slot(a, i)
    ensures Slot(a + b, m + 1) == b
  {
    forall i | 1 <= i <= m ensures Slot(a + b, i) == Slot(a, i) {
      assert 7 * i <= 7 * m;
      assert (a + b)[7 * (i - 1)..7 * i] == a[7 * (i - 1)..7 * i];
    }
    assert (a + b)[7 * m..7 * m + 7] == b;
  }

  /** The components for the first n bits of a register. */
  function Memory(name: string, clk: string, dEnable: string, dOutput: string, dIn: seq<string>, n: nat): (r: seq<Component>)
    requires |dIn| == 8 && n <= 8
    ensures |r| == 7 * n
  {
    if n == 0 then []
    else Memory(name, clk, dEnable, dOutput, dIn, n - 1) + MemoryCell(name, clk, dEnable, dOutput, dIn[n - 1], n)
  }

  /** Slot i of the first n bits holds the seven components of bit i. */
  lemma {:induction false} MemorySlots(name: string, clk: string, dEnable: string, dOutput: string, dIn: seq<string>, n: nat)
    requires |dIn| == 8 && n <= 8
    ensures forall i :: 1 <= i <= n ==>
              Slot(Memory(name, clk, dEnable, dOutput, dIn, n), i) == MemoryCell(name, clk, dEnable, dOutput, dIn[i - 1], i)
  {
    if n > 0 {
      var a := Memory(name, clk, dEnable, dOutput, dIn, n - 1);
      var b := MemoryCell(name, clk, dEnable, dOutput, dIn[n - 1], n);
      MemorySlots(name, clk, dEnable, dOutput, dIn, n - 1);
      SlotsOfAppend(a, b, n - 1);
      assert Memory(name, clk, dEnable, dOutput, dIn, n) == a + b;
      forall i | 1 <= i <= n ensures Slot(a + b, i) == MemoryCell(name, clk, dEnable, dOutput, dIn[i - 1], i) {
        if i < n {
          assert Slot(a + b, i) == Slot(a, i);
          assert Slot(a, i) == MemoryCell(name, clk, dEnable, dOutput, dIn[i - 1], i);
        } else {
          assert Slot(a + b, n) == b;
        }
      }
    }
  }

  /** `create8BitMemoryComponent(name, clk, dEnable, dOutput, dIn)`. */
  method Create8BitMemoryComponent(name: string, clk: string, dEnable: string, dOutput: string, dIn: seq<string>)
    returns (components: seq<Component>)
    requires |dIn| == 8
    ensures components == Memory(name, clk, dEnable, dOutput, dIn, 8)
  {
    components := [];
    for i := 1 to 9
      invariant components == Memory(name, clk, dEnable, dOutput, dIn, i - 1)
    {
      ghost var before := components;
      var latch := Dffe(DffeName(name, i), clk, dIn[i - 1], dEnable);
      components := components + latch;
      components := components + [Component(OutputId(name, i), TriState, [Qualify(DffeName(name, i), "q"), dOutput], X)];
      assert components == before + (latch + [Tristate(name, dOutput, i)]);
    }
  }

  /** Component k of bit i of a register: the gated latch `${name}.dffe${i}` for k < 6, then its
      tristate output. */
  lemma MemoryAt(name: string, clk: string, dEnable: string, dOutput: string, dIn: seq<string>, i: nat, k: nat)
    requires |dIn| == 8 && 1 <= i <= 8 && k < 7
    ensures var r := Memory(name, clk, dEnable, dOutput, dIn, 8);
            r[7 * (i - 1) + k] == if k < 6 then Dffe(DffeName(name, i), clk, dIn[i - 1], dEnable)[k] else Tristate(name, dOutput, i)
  {
    var r := Memory(name, clk, dEnable, dOutput, dIn, 8);
    var c := MemoryCell(name, clk, dEnable, dOutput, dIn[i - 1], i);
    MemorySlots(name, clk, dEnable, dOutput, dIn, 8);
    CellShape(name, clk, dEnable, dOutput, dIn[i - 1], i);
    assert Slot(r, i) == c;
    assert r[7 * (i - 1) + k] == c[k];
  }

  /* ---------- create8BitDataBusComponent ---------- */

  /** Bus line `${name}.d${i}` reading the outputs `dIn`; it starts "x". */
  function BusLine(name: string, dIn: seq<string>, i: nat): Component
    requires 1 <= i <= 8
  {
    Component(LineId(name, i), Bus, dIn, X)
  }

  /** The first n lines of a data bus. */
  function DataBus(name: string, dIn: seq<seq<string>>, n: nat): (r: seq<Component>)
    requires |dIn| == 8 && n <= 8
    ensures |r| == n
  {
    if n == 0 then [] else DataBus(name, dIn, n - 1) + [BusLine(name, dIn[n - 1], n)]
  }

  /** Component k of a data bus is line k + 1, reading `dIn[k]`. */
  lemma {:induction false} DataBusAt(name: string, dIn: seq<seq<string>>, n: nat)
    requires |dIn| == 8 && n <= 8
    ensures forall k :: 0 <= k < n ==> DataBus(name, dIn, n)[k] == BusLine(name, dIn[k], k + 1)
  {
    if n > 0 {
      DataBusAt(name, dIn, n - 1);
      assert forall k :: 0 <= k < n - 1 ==> DataBus(name, dIn, n)[k] == DataBus(name, dIn, n - 1)[k];
    }
  }

  /** `create8BitDataBusComponent(name, dIn)`. */
  method Create8BitDataBusComponent(name: string, dIn: seq<seq<string>>) returns (components: seq<Component>)
    requires |dIn| == 8
    ensures components == DataBus(name, dIn, 8)
  {
    components := [];
    for i := 1 to 9
      invariant components == DataBus(name, dIn, i - 1)
    {
      components := components + [Component(LineId(name, i), Bus, dIn[i - 1], X)];
    }
  }

  /* ---------- ids and wiring of the banks ---------- */

  /** Every id of `s` lies in the group `name`. */
  predicate AllIn(s: seq<Component>, name: string) {
    forall k :: 0 <= k < |s| ==> InGroup(s[k].id, name)
  }

  /** The ids of a switch bank are distinct and lie in its group. */
  lemma DipSwitchIds(name: string)
    ensures DistinctIds(DipSwitch(name, 8)) && AllIn(DipSwitch(name, 8), name)
  {
    var r := DipSwitch(name, 8);
    DipSwitchAt(name, 8);
    forall i, j | 0 <= i < j < 8 ensures r[i].id != r[j].id {
      OutputIdInjective(name, i + 1, j + 1);
    }
    forall k | 0 <= k < 8 ensures InGroup(r[k].id, name) {
      NumberedIdShape(name, k + 1);
    }
  }

  /** The ids of a data bus are distinct and lie in its group. */
  lemma DataBusIds(name: string, dIn: seq<seq<string>>)
    requires |dIn| == 8
    ensures DistinctIds(DataBus(name, dIn, 8)) && AllIn(DataBus(name, dIn, 8), name)
  {
    var r := DataBus(name, dIn, 8);
    DataBusAt(name, dIn, 8);
    forall k | 0 <= k < 8 ensures InGroup(r[k].id, name) && r[k].id[|name| + 2] == IndexText(k + 1)[0] {
      NumberedIdShape(name, k + 1);
    }
    forall i, j | 0 <= i < j < 8 ensures r[i].id != r[j].id {
      assert r[i].id[|name| + 2] == IndexText(i + 1)[0];
      assert r[j].id[|name| + 2] == IndexText(j + 1)[0];
    }
  }

  /** Every id of `s` lies in the group `name` and carries a bit number from 1 to n at the
      position where `dffe${i}` and `dOut${i}` carry theirs. */
  predicate NumberedUpTo(s: seq<Component>, name: string, n: nat) {
    forall k :: 0 <= k < |s| ==>
      InGroup(s[k].id, name) && |name| + 6 <= |s[k].id| &&
      '1' as int <= s[k].id[|name| + 5] as int <= '0' as int + n
  }

  /** The ids of bit i: distinct, in the register's group, numbered i; the six latch ids carry
      'f' (of `dffe`) after the register's name, and the tristate 'O' (of `dOut`). */
  lemma CellIds(name: string, clk: string, dEnable: string, dOutput: string, dIn: string, i: nat)
    requires 1 <= i <= 8
    ensures var r := MemoryCell(name, clk, dEnable, dOutput, dIn, i);
            DistinctIds(r) &&
            forall k :: 0 <= k < 7 ==>
              InGroup(r[k].id, name) && |name| + 6 <= |r[k].id| &&
              r[k].id[|name| + 5] == IndexText(i)[0]
  {
    var r := MemoryCell(name, clk, dEnable, dOutput, dIn, i);
    var n := DffeName(name, i);
    var g := Dffe(n, clk, dIn, dEnable);
    NumberedIdShape(name, i);
    DffeIds(n, clk, dIn, dEnable);
    DffeWiring(n, clk, dIn, dEnable);
    CellShape(name, clk, dEnable, dOutput, dIn, i);
    forall k | 0 <= k < 6
      ensures r[k].id == g[k].id && InGroup(g[k].id, name) && |name| + 6 <= |g[k].id|
      ensures g[k].id[|name| + 5] == IndexText(i)[0] && g[k].id[|name| + 2] == 'f'
    {
      QualifyInGroup(n, DffeParts[k]);
      SubGroupInGroup(g[k].id, name, "dffe" + IndexText(i));
      assert g[k].id[..|n| + 1] == n + ".";
      assert g[k].id[|name| + 5] == (n + ".")[|name| + 5];
      assert g[k].id[|name| + 2] == (n + ".")[|name| + 2];
    }
    assert r[6].id[|name| + 2] == 'O';
  }

  lemma DistinctAppend(a: seq<Component>, b: seq<Component>)
    requires DistinctIds(a) && DistinctIds(b)
    requires forall i, j :: 0 <= i < |a| && 0 <= j < |b| ==> a[i].id != b[j].id
    ensures DistinctIds(a + b)
  {
    var r := a + b;
    forall i, j | 0 <= i < j < |r| ensures r[i].id != r[j].id {
      if j < |a| {
        assert r[i] == a[i] && r[j] == a[j];
      } else if i < |a| {
        assert r[i] == a[i] && r[j] == b[j - |a|];
      } else {
        assert r[i] == b[i - |a|] && r[j] == b[j - |a|];
      }
    }
  }

  /** Appending bit n's ids, all numbered n, to ids numbered below n keeps them distinct. */
  lemma NumberedAppend(a: seq<Component>, b: seq<Component>, name: string, n: nat)
    requires 1 <= n <= 8 && DistinctIds(a) && DistinctIds(b) && NumberedUpTo(a, name, n - 1)
    requires forall k :: 0 <= k < |b| ==>
      InGroup(b[k].id, name) && |name| + 6 <= |b[k].id| && b[k].id[|name| + 5] == IndexText(n)[0]
    ensures DistinctIds(a + b) && NumberedUpTo(a + b, name, n)
  {
    forall i, j | 0 <= i < |a| && 0 <= j < |b| ensures a[i].id != b[j].id {
      assert a[i].id[|name| + 5] != b[j].id[|name| + 5];
    }
    DistinctAppend(a, b);
    var r := a + b;
    forall k | 0 <= k < |r|
      ensures InGroup(r[k].id, name) && |name| + 6 <= |r[k].id|
      ensures '1' as int <= r[k].id[|name| + 5] as int <= '0' as int + n
    {
      if k >= |a| {
        assert r[k] == b[k - |a|];
      } else {
        assert r[k] == a[k];
      }
    }
  }

  /** The ids of the first n bits of a register are distinct, in its group and numbered 1 .. n. */
  lemma {:induction false} MemoryIds(name: string, clk: string, dEnable: string, dOutput: string, dIn: seq<string>, n: nat)
    requires |dIn| == 8 && n <= 8
    ensures DistinctIds(Memory(name, clk, dEnable, dOutput, dIn, n))
    ensures NumberedUpTo(Memory(name, clk, dEnable, dOutput, dIn, n), name, n)
  {
    if n > 0 {
      var a := Memory(name, clk, dEnable, dOutput, dIn, n - 1);
      var b := MemoryCell(name, clk, dEnable, dOutput, dIn[n - 1], n);
      MemoryIds(name, clk, dEnable, dOutput, dIn, n - 1);
      CellIds(name, clk, dEnable, dOutput, dIn[n - 1], n);
      assert Memory(name, clk, dEnable, dOutput, dIn, n) == a + b;
      NumberedAppend(a, b, name, n);
    }
  }

  /** The ids of a register are distinct and lie in its group. */
  lemma RegisterIds(name: string, clk: string, dEnable: string, dOutput: string, dIn: seq<string>)
    requires |dIn| == 8
    ensures DistinctIds(Memory(name, clk, dEnable, dOutput, dIn, 8))
    ensures AllIn(Memory(name, clk, dEnable, dOutput, dIn, 8), name)
  {
    MemoryIds(name, clk, dEnable, dOutput, dIn, 8);
  }
}
