/** The network 8bit-computer.ts assembles (8bit-computer.ts:74-138): a clock,
    two constant lines, three switch banks, two registers r1 and r2 over the
    same data switches, and a data bus over the registers' outputs. The lemmas
    give each component's position, show the ids are distinct and every input
    names a component of the list, so that every lookup of `evaluate`
    succeeds, and place the sixteen gated latches for the latch lemmas. */
module EightBit {
  import opened Components
  import opened Names
  import opened Latches
  import opened Engine
  import opened LatchBehaviour
  import opened Computer

  /** The data inputs both registers read. */
  const DataInputs: seq<string> := [
    "input_switch.dOut1", "input_switch.dOut2", "input_switch.dOut3", "input_switch.dOut4",
    "input_switch.dOut5", "input_switch.dOut6", "input_switch.dOut7", "input_switch.dOut8"]

  /** What each line of the data bus reads. */
  const BusInputs: seq<seq<string>> := [
    ["r1.dOut1", "r2.dOut1"], ["r1.dOut2", "r2.dOut2"], ["r1.dOut3", "r2.dOut3"], ["r1.dOut4", "r2.dOut4"],
    ["r1.dOut5", "r2.dOut5"], ["r1.dOut6", "r2.dOut6"], ["r1.dOut7", "r2.dOut7"], ["r1.dOut8", "r2.dOut8"]]

  /** `clock`, `always_high` and `always_low`, all driven from outside. */
  const Head: seq<Component> := [
    Component("clock", Custom, [], Zero),
    Component("always_high", Custom, [], One),
    Component("always_low", Custom, [], Zero)]

  /** Register 1 or 2: its name, its write enable and its output enable. */
  function RegName(reg: nat): string {
    if reg == 1 then "r1" else "r2"
  }

  function WriteEnable(reg: nat): string {
    if reg == 1 then "write_register_switch.dOut1" else "write_register_switch.dOut2"
  }

  function OutputEnable(reg: nat): string {
    if reg == 1 then "output_register_switch.dOut1" else "output_register_switch.dOut2"
  }

  function Register(reg: nat): (r: seq<Component>)
    ensures |r| == 56
  {
    Memory(RegName(reg), "clock", WriteEnable(reg), OutputEnable(reg), DataInputs, 8)
  }

  /** The assembled list `components`, in the source's order. */
  function Network(): (r: seq<Component>)
    ensures |r| == 147
  {
    Head + DipSwitch("write_register_switch", 8) + DipSwitch("output_register_switch", 8) +
    DipSwitch("input_switch", 8) + Register(1) + Register(2) + DataBus("data_bus", BusInputs, 8)
  }

  /** The source's list expression, built with the three builders in the source's order. */
  method AssembleComponents() returns (components: seq<Component>)
    ensures components == Network()
  {
    var writeSwitches := Create8BitDipSwitchComponent("write_register_switch");
    var outputSwitches := Create8BitDipSwitchComponent("output_register_switch");
    var inputSwitches := Create8BitDipSwitchComponent("input_switch");
    var r1 := Create8BitMemoryComponent("r1", "clock", "write_register_switch.dOut1",
                                        "output_register_switch.dOut1", DataInputs);
    var r2 := Create8BitMemoryComponent("r2", "clock", "write_register_switch.dOut2",
                                        "output_register_switch.dOut2", DataInputs);
    var dataBus := Create8BitDataBusComponent("data_bus", BusInputs);
    components := Head + writeSwitches + outputSwitches + inputSwitches + r1 + r2 + dataBus;
  }

  /* ---------- positions ---------- */

  /** Positions in the list: switch i of the write, output and input banks, the first component
      of latch `dffe${i}` of register `reg`, and line i of the data bus. */
  function WriteAt(i: nat): nat { 2 + i }
  function OutputAt(i: nat): nat { 10 + i }
  function InputAt(i: nat): nat { 18 + i }
  function LatchAt(reg: nat, i: nat): nat { if reg == 1 then 20 + 7 * i else 76 + 7 * i }
  function LineAt(i: nat): nat { 138 + i }

  /** The ids the list spells out are the ones the builders make. */
  lemma LiteralIds()
    ensures forall i :: 1 <= i <= 8 ==> DataInputs[i - 1] == OutputId("input_switch", i)
    ensures forall i :: 1 <= i <= 8 ==> BusInputs[i - 1] == [OutputId("r1", i), OutputId("r2", i)]
    ensures forall reg :: 1 <= reg <= 2 ==> WriteEnable(reg) == OutputId("write_register_switch", reg)
    ensures forall reg :: 1 <= reg <= 2 ==> OutputEnable(reg) == OutputId("output_register_switch", reg)
  {
    forall i | 1 <= i <= 8
      ensures DataInputs[i - 1] == OutputId("input_switch", i)
      ensures BusInputs[i - 1] == [OutputId("r1", i), OutputId("r2", i)]
    {
      DataInputId(i);
      BusInputIds(i);
    }
    EnableIds();
  }

  lemma EnableIds()
    ensures forall reg :: 1 <= reg <= 2 ==> WriteEnable(reg) == OutputId("write_register_switch", reg)
    ensures forall reg :: 1 <= reg <= 2 ==> OutputEnable(reg) == OutputId("output_register_switch", reg)
  {
    assert IndexText(1) == "1" && IndexText(2) == "2";
  }

  lemma DataInputId(i: nat)
    requires 1 <= i <= 8
    ensures DataInputs[i - 1] == OutputId("input_switch", i)
  {
    assert IndexText(i) == [('0' as int + i) as char];
    assert DataInputs[i - 1] == "input_switch.dOut" + IndexText(i);
  }

  lemma BusInputIds(i: nat)
    requires 1 <= i <= 8
    ensures BusInputs[i - 1] == [OutputId("r1", i), OutputId("r2", i)]
  {
    assert IndexText(i) == [('0' as int + i) as char];
    assert |BusInputs[i - 1]| == 2;
    assert BusInputs[i - 1][0] == "r1.dOut" + IndexText(i) == OutputId("r1", i);
    assert BusInputs[i - 1][1] == "r2.dOut" + IndexText(i) == OutputId("r2", i);
  }

  /** Where each part of a list of seven parts sits. */
  lemma PartsAt(a: seq<Component>, b: seq<Component>, c: seq<Component>, d: seq<Component>,
                e: seq<Component>, f: seq<Component>, g: seq<Component>, k: nat)
    requires k < |a| + |b| + |c| + |d| + |e| + |f| + |g|
    ensures var s := a + b + c + d + e + f + g;
            var (n1, n2, n3) := (|a|, |a| + |b|, |a| + |b| + |c|);
            var (n4, n5, n6) := (n3 + |d|, n3 + |d| + |e|, n3 + |d| + |e| + |f|);
            s[k] == if k < n1 then a[k] else if k < n2 then b[k - n1] else if k < n3 then c[k - n2]
                    else if k < n4 then d[k - n3] else if k < n5 then e[k - n4]
                    else if k < n6 then f[k - n5] else g[k - n6]
  {
  }

  lemma NetworkParts()
    ensures Network() == Head + DipSwitch("write_register_switch", 8) + DipSwitch("output_register_switch", 8) +
                         DipSwitch("input_switch", 8) + Register(1) + Register(2) + DataBus("data_bus", BusInputs, 8)
  {
  }

  /** Component k of the network, in terms of the part it lies in. */
  lemma NetworkAt(k: nat)
    requires k < 147
    ensures Network()[k] ==
      if k < 3 then Head[k]
      else if k < 11 then DipSwitch("write_register_switch", 8)[k - 3]
      else if k < 19 then DipSwitch("output_register_switch", 8)[k - 11]
      else if k < 27 then DipSwitch("input_switch", 8)[k - 19]
      else if k < 83 then Register(1)[k - 27]
      else if k < 139 then Register(2)[k - 83]
      else DataBus("data_bus", BusInputs, 8)[k - 139]
  {
    NetworkParts();
    PartsAt(Head, DipSwitch("write_register_switch", 8), DipSwitch("output_register_switch", 8),
            DipSwitch("input_switch", 8), Register(1), Register(2), DataBus("data_bus", BusInputs, 8), k);
  }

  /** The switches and bus lines at their positions. */
  lemma BanksAt(i: nat)
    requires 1 <= i <= 8
    ensures Network()[WriteAt(i)] == Switch("write_register_switch", i)
    ensures Network()[OutputAt(i)] == Switch("output_register_switch", i)
    ensures Network()[InputAt(i)] == Switch("input_switch", i)
    ensures Network()[LineAt(i)] == BusLine("data_bus", BusInputs[i - 1], i)
  {
    DipSwitchAt("write_register_switch", 8);
    DipSwitchAt("output_register_switch", 8);
    DipSwitchAt("input_switch", 8);
    DataBusAt("data_bus", BusInputs, 8);
    NetworkAt(WriteAt(i));
    NetworkAt(OutputAt(i));
    NetworkAt(InputAt(i));
    NetworkAt(LineAt(i));
  }

  /** Component k of bit i of register `reg`: the latch's six gates, then the tristate. */
  lemma RegisterAt(reg: nat, i: nat, k: nat)
    requires 1 <= reg <= 2 && 1 <= i <= 8 && k < 7
    ensures Network()[LatchAt(reg, i) + k] ==
            if k < 6 then Dffe(DffeName(RegName(reg), i), "clock", DataInputs[i - 1], WriteEnable(reg))[k]
            else Tristate(RegName(reg), OutputEnable(reg), i)
  {
    var j := 7 * (i - 1) + k;
    assert j < 56;
    assert LatchAt(reg, i) + k == (if reg == 1 then 27 else 83) + j;
    NetworkAt(LatchAt(reg, i) + k);
    assert Network()[LatchAt(reg, i) + k] == Register(reg)[j];
    MemoryAt(RegName(reg), "clock", WriteEnable(reg), OutputEnable(reg), DataInputs, i, k);
  }

  lemma HeadAt()
    ensures Network()[0] == Component("clock", Custom, [], Zero)
    ensures Network()[1] == Component("always_high", Custom, [], One)
    ensures Network()[2] == Component("always_low", Custom, [], Zero)
  {
    NetworkAt(0);
    NetworkAt(1);
    NetworkAt(2);
  }

  /** The gated latch holding bit i of register `reg`, at its position. */
  lemma LatchGatesAt(reg: nat, i: nat)
    requires 1 <= reg <= 2 && 1 <= i <= 8
    ensures forall j :: LatchAt(reg, i) <= j < LatchAt(reg, i) + 6 ==>
              Network()[j] == Dffe(DffeName(RegName(reg), i), "clock", DataInputs[i - 1], WriteEnable(reg))[j - LatchAt(reg, i)]
  {
    forall j | LatchAt(reg, i) <= j < LatchAt(reg, i) + 6
      ensures Network()[j] == Dffe(DffeName(RegName(reg), i), "clock", DataInputs[i - 1], WriteEnable(reg))[j - LatchAt(reg, i)]
    {
      RegisterAt(reg, i, j - LatchAt(reg, i));
    }
  }

  /* ---------- distinct ids ---------- */

  /** No id of `s` lies in the group `name`. */
  predicate NoneIn(s: seq<Component>, name: string) {
    forall k :: 0 <= k < |s| ==> !InGroup(s[k].id, name)
  }

  lemma Apart(s: seq<Component>, a: string, b: string)
    requires AllIn(s, a) && DotFree(a) && DotFree(b) && a != b
    ensures NoneIn(s, b)
  {
    forall k | 0 <= k < |s| ensures !InGroup(s[k].id, b) {
      GroupsDisjoint(s[k].id, a, b);
    }
  }

  lemma NoneInAppend(a: seq<Component>, b: seq<Component>, name: string)
    requires NoneIn(a, name) && NoneIn(b, name)
    ensures NoneIn(a + b, name)
  {
    var r := a + b;
    forall k | 0 <= k < |r| ensures !InGroup(r[k].id, name) {
      if k < |a| {
        assert r[k] == a[k];
      } else {
        assert r[k] == b[k - |a|];
      }
    }
  }

  /** Appending a group to components outside it keeps the ids distinct. */
  lemma AppendGroup(a: seq<Component>, b: seq<Component>, name: string)
    requires DistinctIds(a) && DistinctIds(b) && NoneIn(a, name) && AllIn(b, name)
    ensures DistinctIds(a + b)
  {
    forall i, j | 0 <= i < |a| && 0 <= j < |b| ensures a[i].id != b[j].id {
      assert InGroup(b[j].id, name);
    }
    DistinctAppend(a, b);
  }

  lemma HeadOutside(name: string)
    ensures NoneIn(Head, name)
  {
    forall k | 0 <= k < 3 ensures !InGroup(Head[k].id, name) {
      DotFreeInNoGroup(Head[k].id, name);
    }
  }

  /** The names of the six groups of the network. */
  const GroupNames: seq<string> := ["write_register_switch", "output_register_switch", "input_switch", "r1", "r2", "data_bus"]

  lemma GroupNamesApart()
    ensures forall i :: 0 <= i < 6 ==> DotFree(GroupNames[i])
    ensures forall i, j :: 0 <= i < j < 6 ==> GroupNames[i] != GroupNames[j]
  {
    assert GroupNames[3][1] != GroupNames[4][1];
  }

  lemma HeadFacts()
    ensures DistinctIds(Head)
    ensures forall i :: 0 <= i < 6 ==> NoneIn(Head, GroupNames[i])
  {
    forall i | 0 <= i < 6 ensures NoneIn(Head, GroupNames[i]) {
      HeadOutside(GroupNames[i]);
    }
  }

  lemma BankFacts()
    ensures DistinctIds(DipSwitch("write_register_switch", 8)) && AllIn(DipSwitch("write_register_switch", 8), GroupNames[0])
    ensures DistinctIds(DipSwitch("output_register_switch", 8)) && AllIn(DipSwitch("output_register_switch", 8), GroupNames[1])
    ensures DistinctIds(DipSwitch("input_switch", 8)) && AllIn(DipSwitch("input_switch", 8), GroupNames[2])
    ensures DistinctIds(DataBus("data_bus", BusInputs, 8)) && AllIn(DataBus("data_bus", BusInputs, 8), GroupNames[5])
  {
    DipSwitchIds("write_register_switch");
    DipSwitchIds("output_register_switch");
    DipSwitchIds("input_switch");
    DataBusIds("data_bus", BusInputs);
  }

  lemma RegisterFacts(reg: nat)
    requires 1 <= reg <= 2
    ensures DistinctIds(Register(reg)) && AllIn(Register(reg), GroupNames[reg + 2])
  {
    RegisterIds(RegName(reg), "clock", WriteEnable(reg), OutputEnable(reg), DataInputs);
  }

  /** The clock, the constant lines and the three switch banks have distinct ids, none in the
      groups of the registers and the bus. */
  lemma SwitchPartIds()
    ensures var p := Head + DipSwitch("write_register_switch", 8) + DipSwitch("output_register_switch", 8) +
                     DipSwitch("input_switch", 8);
            DistinctIds(p) && NoneIn(p, "r1") && NoneIn(p, "r2") && NoneIn(p, "data_bus")
  {
    var W, O, I := DipSwitch("write_register_switch", 8), DipSwitch("output_register_switch", 8), DipSwitch("input_switch", 8);
    GroupNamesApart();
    HeadFacts();
    BankFacts();
    AppendGroup(Head, W, GroupNames[0]);
    Apart(W, GroupNames[0], GroupNames[1]);
    NoneInAppend(Head, W, GroupNames[1]);
    AppendGroup(Head + W, O, GroupNames[1]);
    Apart(W, GroupNames[0], GroupNames[2]);
    Apart(O, GroupNames[1], GroupNames[2]);
    NoneInAppend(Head, W, GroupNames[2]);
    NoneInAppend(Head + W, O, GroupNames[2]);
    AppendGroup(Head + W + O, I, GroupNames[2]);
    forall j | 3 <= j < 6 ensures NoneIn(Head + W + O + I, GroupNames[j]) {
      Apart(W, GroupNames[0], GroupNames[j]);
      Apart(O, GroupNames[1], GroupNames[j]);
      Apart(I, GroupNames[2], GroupNames[j]);
      NoneInAppend(Head, W, GroupNames[j]);
      NoneInAppend(Head + W, O, GroupNames[j]);
      NoneInAppend(Head + W + O, I, GroupNames[j]);
    }
    assert GroupNames[3] == "r1" && GroupNames[4] == "r2" && GroupNames[5] == "data_bus";
  }


  /** The switch banks followed by register r1. */
  lemma FirstRegisterIds()
    ensures var p := Head + DipSwitch("write_register_switch", 8) + DipSwitch("output_register_switch", 8) +
                     DipSwitch("input_switch", 8) + Register(1);
            DistinctIds(p) && NoneIn(p, "r2") && NoneIn(p, "data_bus")
  {
    var p := Head + DipSwitch("write_register_switch", 8) + DipSwitch("output_register_switch", 8) +
             DipSwitch("input_switch", 8);
    SwitchPartIds();
    RegisterFacts(1);
    GroupNamesApart();
    assert GroupNames[3] == "r1" && GroupNames[4] == "r2" && GroupNames[5] == "data_bus";
    AppendGroup(p, Register(1), GroupNames[3]);
    Apart(Register(1), GroupNames[3], GroupNames[4]);
    Apart(Register(1), GroupNames[3], GroupNames[5]);
    NoneInAppend(p, Register(1), GroupNames[4]);
    NoneInAppend(p, Register(1), GroupNames[5]);
  }

  /** ... then register r2. */
  lemma SecondRegisterIds()
    ensures var p := Head + DipSwitch("write_register_switch", 8) + DipSwitch("output_register_switch", 8) +
                     DipSwitch("input_switch", 8) + Register(1) + Register(2);
            DistinctIds(p) && NoneIn(p, "data_bus")
  {
    var p := Head + DipSwitch("write_register_switch", 8) + DipSwitch("output_register_switch", 8) +
             DipSwitch("input_switch", 8) + Register(1);
    FirstRegisterIds();
    RegisterFacts(2);
    GroupNamesApart();
    assert GroupNames[4] == "r2" && GroupNames[5] == "data_bus";
    AppendGroup(p, Register(2), GroupNames[4]);
    Apart(Register(2), GroupNames[4], GroupNames[5]);
    NoneInAppend(p, Register(2), GroupNames[5]);
  }

  /** No two components of the network share an id. */
  lemma NetworkIdsDistinct()
    ensures DistinctIds(Network())
  {
    var p := Head + DipSwitch("write_register_switch", 8) + DipSwitch("output_register_switch", 8) +
             DipSwitch("input_switch", 8) + Register(1) + Register(2);
    var b := DataBus("data_bus", BusInputs, 8);
    SecondRegisterIds();
    DataBusIds("data_bus", BusInputs);
    AppendGroup(p, b, "data_bus");
    assert Network() == p + b by {
      NetworkParts();
    }
  }

  /* ---------- the layout of the assembled list ---------- */

  /** Switch i of each bank and line i of the bus at their positions. */
  predicate BanksLayout(s: seq<Component>, i: nat)
    requires 1 <= i <= 8
  {
    |s| == 147 &&
    s[WriteAt(i)] == Switch("write_register_switch", i) &&
    s[OutputAt(i)] == Switch("output_register_switch", i) &&
    s[InputAt(i)] == Switch("input_switch", i) &&
    s[LineAt(i)] == BusLine("data_bus", BusInputs[i - 1], i)
  }

  /** Bit i of register `reg` at its position: the gated latch `${reg}.dffe${i}`, then its
      tristate. */
  predicate BitLayout(s: seq<Component>, reg: nat, i: nat)
    requires 1 <= i <= 8
  {
    LatchAt(reg, i) + 7 <= |s| &&
    (forall j :: LatchAt(reg, i) <= j < LatchAt(reg, i) + 6 ==>
       s[j] == Dffe(DffeName(RegName(reg), i), "clock", DataInputs[i - 1], WriteEnable(reg))[j - LatchAt(reg, i)]) &&
    s[LatchAt(reg, i) + 6] == Tristate(RegName(reg), OutputEnable(reg), i)
  }

  /** A list laid out as the assembled network: distinct ids, the clock and the constant lines
      first, and every switch, register bit and bus line at its position. */
  predicate Layout(s: seq<Component>) {
    |s| == 147 && DistinctIds(s) && s[0] == Head[0] && s[1] == Head[1] && s[2] == Head[2] &&
    (forall i :: 1 <= i <= 8 ==> BanksLayout(s, i)) &&
    (forall reg, i :: 1 <= reg <= 2 && 1 <= i <= 8 ==> BitLayout(s, reg, i))
  }

  lemma NetworkLayout()
    ensures Layout(Network())
  {
    NetworkIdsDistinct();
    HeadAt();
    forall i | 1 <= i <= 8 ensures BanksLayout(Network(), i) {
      BanksAt(i);
    }
    forall reg, i | 1 <= reg <= 2 && 1 <= i <= 8 ensures BitLayout(Network(), reg, i) {
      LatchGatesAt(reg, i);
      RegisterAt(reg, i, 6);
    }
  }

  /** Every index from 27 to 138 lies in one of the sixteen register bits. */
  lemma Cover(k: nat) returns (reg: nat, i: nat, j: nat)
    requires 27 <= k < 139
    ensures 1 <= reg <= 2 && 1 <= i <= 8 && j < 7 && k == LatchAt(reg, i) + j
  {
    reg := if k < 83 then 1 else 2;
    var base := if reg == 1 then 27 else 83;
    i, j := (k - base) / 7 + 1, (k - base) % 7;
  }

  /** The six gates of bit i of register `reg`, spelled out. */
  lemma BitGates(s: seq<Component>, reg: nat, i: nat)
    requires 1 <= reg <= 2 && 1 <= i <= 8 && BitLayout(s, reg, i)
    ensures var (p, name) := (LatchAt(reg, i), DffeName(RegName(reg), i));
            var g := Dffe(name, "clock", DataInputs[i - 1], WriteEnable(reg));
            (forall j :: p <= j < p + 6 ==> s[j] == g[j - p]) &&
            s[p + 3].id == Qualify(name, "q") &&
            s[p + 6].id == OutputId(RegName(reg), i) &&
            s[p + 6].inputs == [Qualify(name, "q"), OutputEnable(reg)]
  {
    DffeComponents(DffeName(RegName(reg), i), "clock", DataInputs[i - 1], WriteEnable(reg));
  }

  /* ---------- the lookup and the wiring the driver relies on ---------- */

  /** In a list with this layout, the lookup leads the id at index k back to k. */
  lemma LookupAt(s: seq<Component>, lookup: map<string, nat>, k: nat)
    requires Layout(s) && IsLookupOf(lookup, s) && k < 147
    ensures s[k].id in lookup && lookup[s[k].id] == k
  {
    LookupOfDistinct(lookup, s, k);
  }

  /** Where the lookup leads switch i of each bank and line i of the bus. */
  predicate BankPosition(lookup: map<string, nat>, i: nat)
    requires 1 <= i <= 8
  {
    OutputId("write_register_switch", i) in lookup && lookup[OutputId("write_register_switch", i)] == WriteAt(i) &&
    OutputId("output_register_switch", i) in lookup && lookup[OutputId("output_register_switch", i)] == OutputAt(i) &&
    OutputId("input_switch", i) in lookup && lookup[OutputId("input_switch", i)] == InputAt(i) &&
    LineId("data_bus", i) in lookup && lookup[LineId("data_bus", i)] == LineAt(i)
  }

  /** Where the lookup leads `q` of bit i of register `reg` and the bit's tristate. */
  predicate RegisterPosition(lookup: map<string, nat>, reg: nat, i: nat)
    requires 1 <= reg <= 2 && 1 <= i <= 8
  {
    Qualify(DffeName(RegName(reg), i), "q") in lookup &&
    lookup[Qualify(DffeName(RegName(reg), i), "q")] == LatchAt(reg, i) + 3 &&
    OutputId(RegName(reg), i) in lookup && lookup[OutputId(RegName(reg), i)] == LatchAt(reg, i) + 6
  }

  /** Where the lookup leads the ids the driver sets and the ids it samples. */
  predicate Positions(lookup: map<string, nat>) {
    "clock" in lookup && lookup["clock"] == 0 &&
    (forall i :: 1 <= i <= 8 ==> BankPosition(lookup, i)) &&
    (forall reg, i :: 1 <= reg <= 2 && 1 <= i <= 8 ==> RegisterPosition(lookup, reg, i))
  }

  lemma BankPositions(s: seq<Component>, lookup: map<string, nat>, i: nat)
    requires Layout(s) && IsLookupOf(lookup, s) && 1 <= i <= 8
    ensures BankPosition(lookup, i)
  {
    assert BanksLayout(s, i);
    LookupAt(s, lookup, WriteAt(i));
    LookupAt(s, lookup, OutputAt(i));
    LookupAt(s, lookup, InputAt(i));
    LookupAt(s, lookup, LineAt(i));
  }

  lemma RegisterPositions(s: seq<Component>, lookup: map<string, nat>, reg: nat, i: nat)
    requires Layout(s) && IsLookupOf(lookup, s) && 1 <= reg <= 2 && 1 <= i <= 8
    ensures RegisterPosition(lookup, reg, i)
  {
    BitGates(s, reg, i);
    LookupAt(s, lookup, LatchAt(reg, i) + 3);
    LookupAt(s, lookup, LatchAt(reg, i) + 6);
  }

  /** The lookup `createComponentLookup` builds for a list with this layout leads each of
      those ids to its position. */
  lemma LayoutPositions(s: seq<Component>, lookup: map<string, nat>)
    requires Layout(s) && IsLookupOf(lookup, s)
    ensures Positions(lookup)
  {
    LookupAt(s, lookup, 0);
    forall i | 1 <= i <= 8 ensures BankPosition(lookup, i) {
      BankPositions(s, lookup, i);
    }
    forall reg, i | 1 <= reg <= 2 && 1 <= i <= 8 ensures RegisterPosition(lookup, reg, i) {
      RegisterPositions(s, lookup, reg, i);
    }
  }

  /** What the driver relies on in a network of the network's shape: the positions of the
      lookup; the clock, the constant lines and the switches are `custom`; the tristates and
      bus lines are not gates; and the sixteen gated latches sit at their positions, clocked
      by `clock`, enabled by their register's write switch and fed by their data switch. */
  predicate Wiring(s: seq<Component>, lookup: map<string, nat>) {
    |s| == 147 && Positions(lookup) &&
    (forall k :: 0 <= k < 27 ==> s[k].kind == Custom) &&
    (forall i :: 1 <= i <= 8 ==> s[LineAt(i)].kind == Bus) &&
    (forall reg, i :: 1 <= reg <= 2 && 1 <= i <= 8 ==> BitAt(s, lookup, reg, i))
  }

  /** Bit i of register `reg`: its gated latch, clocked by `clock`, enabled by the register's
      write switch and fed by data switch i, followed by its tristate. */
  predicate BitAt(s: seq<Component>, lookup: map<string, nat>, reg: nat, i: nat)
    requires 1 <= i <= 8
  {
    LatchAt(reg, i) + 7 <= |s| && s[LatchAt(reg, i) + 6].kind == TriState &&
    DffeAt(s, lookup, LatchAt(reg, i), "clock", DataInputs[i - 1], WriteEnable(reg))
  }

  /** The wiring depends on ids, kinds and inputs only, so states can change under it. */
  lemma WiringShape(s: seq<Component>, t: seq<Component>, lookup: map<string, nat>)
    requires SameShape(t, s) && Wiring(s, lookup)
    ensures Wiring(t, lookup)
  {
    assert forall k :: 0 <= k < |s| ==> t[k].kind == s[k].kind;
    forall reg, i | 1 <= reg <= 2 && 1 <= i <= 8 ensures BitAt(t, lookup, reg, i) {
      assert BitAt(s, lookup, reg, i);
      DffeAtShape(s, t, lookup, LatchAt(reg, i), "clock", DataInputs[i - 1], WriteEnable(reg));
    }
  }

  /** The six gates of a gated latch can be evaluated. */
  lemma LatchWired(s: seq<Component>, lookup: map<string, nat>, p: nat, clk: string, dIn: string, dEnable: string, j: nat)
    requires DffeAt(s, lookup, p, clk, dIn, dEnable) && j < 6
    ensures Wired(s[p + j].kind, s[p + j].inputs, lookup, |s|)
  {
  }

  /** In a network with this wiring every lookup of a pass succeeds. */
  lemma WiringResolvable(s: seq<Component>, lookup: map<string, nat>)
    requires Wiring(s, lookup)
    ensures Resolvable(s, lookup)
  {
    forall k | 0 <= k < |s| ensures Wired(s[k].kind, s[k].inputs, lookup, |s|) {
      if 27 <= k < 139 {
        var reg, i, j := Cover(k);
        assert BitAt(s, lookup, reg, i);
        BitWired(s, lookup, reg, i, j);
      } else if k >= 139 {
        assert s[LineAt(k - 138)].kind == Bus;
      }
    }
  }

  /** The seven components of a register bit can be evaluated. */
  lemma BitWired(s: seq<Component>, lookup: map<string, nat>, reg: nat, i: nat, j: nat)
    requires 1 <= i <= 8 && j < 7 && BitAt(s, lookup, reg, i)
    ensures Wired(s[LatchAt(reg, i) + j].kind, s[LatchAt(reg, i) + j].inputs, lookup, |s|)
  {
    if j < 6 {
      LatchWired(s, lookup, LatchAt(reg, i), "clock", DataInputs[i - 1], WriteEnable(reg), j);
    }
  }

  /** The clock, the constant lines and the switches are `custom`. */
  lemma LayoutKinds(s: seq<Component>)
    requires Layout(s)
    ensures forall k :: 0 <= k < 27 ==> s[k].kind == Custom
  {
    forall k | 3 <= k < 27 ensures s[k].kind == Custom {
      var i := if k < 11 then k - 2 else if k < 19 then k - 10 else k - 18;
      assert BanksLayout(s, i);
    }
  }

  /** The clock, data switch i and the write switch of register `reg` are non-gates. */
  lemma LayoutFeeders(s: seq<Component>, lookup: map<string, nat>, reg: nat, i: nat)
    requires Layout(s) && IsLookupOf(lookup, s) && 1 <= reg <= 2 && 1 <= i <= 8
    ensures Feeder(s, lookup, "clock") && Feeder(s, lookup, DataInputs[i - 1]) && Feeder(s, lookup, WriteEnable(reg))
  {
    LayoutKinds(s);
    LiteralIds();
    assert BanksLayout(s, i) && BanksLayout(s, reg);
    LookupAt(s, lookup, 0);
    LookupAt(s, lookup, InputAt(i));
    LookupAt(s, lookup, WriteAt(reg));
  }

  lemma LayoutIndexed(s: seq<Component>, lookup: map<string, nat>, p: nat)
    requires Layout(s) && IsLookupOf(lookup, s) && p + 6 <= 147
    ensures forall j :: p <= j < p + 6 ==> Indexed(s, lookup, j)
  {
    forall j | p <= j < p + 6 ensures Indexed(s, lookup, j) {
      LookupAt(s, lookup, j);
    }
  }

  /** Bit i of register `reg` is a `DffeAt` latch followed by its tristate. */
  lemma LayoutLatch(s: seq<Component>, lookup: map<string, nat>, reg: nat, i: nat)
    requires Layout(s) && IsLookupOf(lookup, s) && 1 <= reg <= 2 && 1 <= i <= 8
    ensures BitAt(s, lookup, reg, i)
  {
    LayoutFeeders(s, lookup, reg, i);
    LayoutIndexed(s, lookup, LatchAt(reg, i));
    assert BitLayout(s, reg, i);
    BitLatch(s, lookup, reg, i);
  }

  /** A bit laid out at its position, whose outside signals are non-gates and whose gates the
      lookup finds, holds a `DffeAt` latch. */
  lemma BitLatch(s: seq<Component>, lookup: map<string, nat>, reg: nat, i: nat)
    requires 1 <= reg <= 2 && 1 <= i <= 8 && BitLayout(s, reg, i)
    requires Feeder(s, lookup, "clock") && Feeder(s, lookup, DataInputs[i - 1]) && Feeder(s, lookup, WriteEnable(reg))
    requires forall j :: LatchAt(reg, i) <= j < LatchAt(reg, i) + 6 ==> Indexed(s, lookup, j)
    ensures DffeAt(s, lookup, LatchAt(reg, i), "clock", DataInputs[i - 1], WriteEnable(reg))
  {
    var p := LatchAt(reg, i);
    DffeIsAt(s, lookup, p, DffeName(RegName(reg), i), "clock", DataInputs[i - 1], WriteEnable(reg));
  }

  /** A list with this layout, with the lookup built for it, has the wiring the driver
      relies on. */
  lemma LayoutWiring(s: seq<Component>, lookup: map<string, nat>)
    requires Layout(s) && IsLookupOf(lookup, s)
    ensures Wiring(s, lookup)
  {
    LayoutPositions(s, lookup);
    LayoutKinds(s);
    forall i | 1 <= i <= 8 ensures s[LineAt(i)].kind == Bus {
      assert BanksLayout(s, i);
    }
    forall reg, i | 1 <= reg <= 2 && 1 <= i <= 8 ensures BitAt(s, lookup, reg, i) {
      LayoutLatch(s, lookup, reg, i);
    }
  }

  /* ---------- every input names a component ---------- */

  /** The ids from outside that bit i of register `reg` reads are the ids of the clock, data
      switch i and the register's write and output switches. */
  lemma BitOutside(s: seq<Component>, reg: nat, i: nat)
    requires 1 <= reg <= 2 && 1 <= i <= 8 && |s| == 147 && s[0] == Head[0] && BanksLayout(s, i) && BanksLayout(s, reg)
    ensures s[0].id == "clock" && s[InputAt(i)].id == DataInputs[i - 1]
    ensures s[WriteAt(reg)].id == WriteEnable(reg) && s[OutputAt(reg)].id == OutputEnable(reg)
  {
    LiteralIds();
  }

  /** A component whose m-th input is the id of component `at[m]` reads only ids of the list. */
  lemma InputsNamed(s: seq<Component>, k: nat, at: seq<nat>)
    requires k < |s| && |s[k].inputs| == |at|
    requires forall m :: 0 <= m < |at| ==> at[m] < |s| && s[k].inputs[m] == s[at[m]].id
    ensures forall m :: 0 <= m < |s[k].inputs| ==> s[k].inputs[m] in IdsOf(s)
  {
    forall m | 0 <= m < |s[k].inputs| ensures s[k].inputs[m] in IdsOf(s) {
      assert s[k].inputs[m] == s[at[m]].id;
    }
  }

  /** What each component of bit i of register `reg` reads, as ids of components of the list:
      the clock, data switch i, the register's write and output switches, or a gate of the bit. */
  predicate BitSources(s: seq<Component>, reg: nat, i: nat)
    requires 1 <= reg <= 2 && 1 <= i <= 8
  {
    var p := LatchAt(reg, i);
    |s| == 147 &&
    s[p].inputs == [s[0].id, s[WriteAt(reg)].id] &&
    s[p + 1].inputs == [s[InputAt(i)].id] &&
    s[p + 2].inputs == [s[InputAt(i)].id, s[p].id] &&
    s[p + 3].inputs == [s[p + 2].id, s[p + 5].id] &&
    s[p + 4].inputs == [s[p + 1].id, s[p].id] &&
    s[p + 5].inputs == [s[p + 4].id, s[p + 3].id] &&
    s[p + 6].inputs == [s[p + 3].id, s[OutputAt(reg)].id]
  }

  lemma BitInputs(s: seq<Component>, reg: nat, i: nat)
    requires 1 <= reg <= 2 && 1 <= i <= 8
    requires |s| == 147 && s[0] == Head[0] && BanksLayout(s, i) && BanksLayout(s, reg) && BitLayout(s, reg, i)
    ensures BitSources(s, reg, i)
  {
    BitOutside(s, reg, i);
    BitGates(s, reg, i);
    DffeComponents(DffeName(RegName(reg), i), "clock", DataInputs[i - 1], WriteEnable(reg));
  }

  /** Every input of bit i of register `reg` is the id of a component of the list: the
      clock, data switch i, the register's write and output switches, or a gate of the bit. */
  lemma BitReads(s: seq<Component>, reg: nat, i: nat, k: nat)
    requires 1 <= reg <= 2 && 1 <= i <= 8 && LatchAt(reg, i) <= k < LatchAt(reg, i) + 7
    requires BitSources(s, reg, i)
    ensures forall m :: 0 <= m < |s[k].inputs| ==> s[k].inputs[m] in IdsOf(s)
  {
    var p := LatchAt(reg, i);
    if k == p {
      InputsNamed(s, k, [0, WriteAt(reg)]);
    } else if k == p + 1 {
      InputsNamed(s, k, [InputAt(i)]);
    } else if k == p + 2 {
      InputsNamed(s, k, [InputAt(i), p]);
    } else if k == p + 3 {
      InputsNamed(s, k, [p + 2, p + 5]);
    } else if k == p + 4 {
      InputsNamed(s, k, [p + 1, p]);
    } else if k == p + 5 {
      InputsNamed(s, k, [p + 4, p + 3]);
    } else {
      InputsNamed(s, k, [p + 3, OutputAt(reg)]);
    }
  }

  /** Line i of the bus reads the tristates of bit i of both registers. */
  lemma LineReads(s: seq<Component>, i: nat)
    requires 1 <= i <= 8 && BanksLayout(s, i) && BitLayout(s, 1, i) && BitLayout(s, 2, i)
    ensures forall m :: 0 <= m < |s[LineAt(i)].inputs| ==> s[LineAt(i)].inputs[m] in IdsOf(s)
  {
    BusInputIds(i);
    assert s[LatchAt(1, i) + 6].id == OutputId("r1", i) && s[LatchAt(2, i) + 6].id == OutputId("r2", i);
    assert s[LineAt(i)].inputs == BusInputs[i - 1];
    InputsNamed(s, LineAt(i), [LatchAt(1, i) + 6, LatchAt(2, i) + 6]);
  }

  /** The clock, the constant lines and the switches read nothing. */
  lemma SwitchReads(s: seq<Component>, k: nat)
    requires Layout(s) && k < 27
    ensures s[k].inputs == []
  {
    var i := if k < 11 then k - 2 else if k < 19 then k - 10 else k - 18;
    if 3 <= k {
      assert BanksLayout(s, i);
    } else {
      assert s[k] == Head[k];
    }
  }

  /** A component of a register bit reads only ids of the list. */
  lemma RegisterReads(s: seq<Component>, k: nat)
    requires Layout(s) && 27 <= k < 139
    ensures forall m :: 0 <= m < |s[k].inputs| ==> s[k].inputs[m] in IdsOf(s)
  {
    var reg, i, j := Cover(k);
    assert BanksLayout(s, i) && BanksLayout(s, reg) && BitLayout(s, reg, i);
    BitInputs(s, reg, i);
    BitReads(s, reg, i, k);
  }

  /** A bus line reads only ids of the list. */
  lemma BusReads(s: seq<Component>, k: nat)
    requires Layout(s) && 139 <= k < 147
    ensures forall m :: 0 <= m < |s[k].inputs| ==> s[k].inputs[m] in IdsOf(s)
  {
    var i := k - 138;
    assert LineAt(i) == k;
    assert BanksLayout(s, i) && BitLayout(s, 1, i) && BitLayout(s, 2, i);
    LineReads(s, i);
  }

  /** In a list with this layout, every input id of every component names a component of the
      list, so no lookup fails whatever reads it. */
  lemma LayoutClosed(s: seq<Component>)
    requires Layout(s)
    ensures ReadsOnly(s, {})
  {
    forall k | 0 <= k < |s|
      ensures forall m :: 0 <= m < |s[k].inputs| ==> s[k].inputs[m] in IdsOf(s)
    {
      if k < 27 {
        SwitchReads(s, k);
      } else if k < 139 {
        RegisterReads(s, k);
      } else {
        BusReads(s, k);
      }
    }
    assert {} + IdsOf(s) == IdsOf(s);
  }
}
