# Gate-level logic simulator, modelled in Dafny

This project models the core of a small gate-level logic simulator written in TypeScript, and
proves properties of that model.

- **Data model.** A network is a list of components. Each component has an id, a kind, the ordered
  ids of the components it reads, and a state. A state is `0`, `1` or the unknown marker "x".
- **Builders.** `mod.ts` builds gated D latches out of NAND gates.
- **Lookup.** `mod.ts` indexes a component list by id.
- **Propagation.** `evaluate` is one propagation pass. It walks the list in order and overwrites
  the state of every gate from the states its inputs hold at that moment. Gates later in the list
  therefore already see the new values of earlier gates. A feedback input, such as `q` reading
  `q_`, sees its value from the previous pass.
- **The 8-bit demo.** `8bit-computer.ts` wires up two 8-bit registers, three banks of DIP switches
  and a data bus: 147 components in all. It then runs 25 iterations. Each iteration toggles the
  clock, sets the switches, calls `evaluate` five times and samples every state.

Modules, one concept each:

- `Components` (components.dfy): states, kinds and the component record.
- `Gates` (gates.dfy): the seven gate functions. `not` and `xor` go through JavaScript's 32-bit
  bitwise operators. `and` and `or` have the operand-returning semantics of `&&` and `||`.
- `Names` (names.dfy): the `${name}.${part}` id template, and when two such ids differ.
- `Latches` (latches.dfy): `createDFFComponent` and `createDFFEComponent`.
- `Engine` (engine.dfy): the two modelled functions and how passes behave.
  - `createComponentLookup` is a method folding over the list.
  - `evaluate` is a method over an `array<Component>` plus a `map<string, nat>` from id to index.
    Reading `components[lookup[id]]` plays the part of reading the aliased record
    `componentLookup[id]`.
  - Both methods are proved equal to pure functions (`IsLookupOf`, `Pass`).
- `LatchBehaviour` (latch_behaviour.dfy): one pass over a gated latch, reduced to a step function
  of six states. Follow, hold and start-up lemmas are proved about that step function.
- `Computer` (computer.dfy): the three 8-bit builders. Each is a loop proved equal to a recursive
  layout function, with lemmas on its ids and on what it reads.
- `EightBit` (network.dfy): the assembled 147-component list. It covers its layout, distinct ids,
  the lookup positions, and that every input names a component.
- `Driver` (driver.dfy): the 25-iteration loop on the array, proved to follow the pure `States`.
  The run is traced iteration by iteration (`Driven`):
  - the clock alternates;
  - the switches take the values the loop writes;
  - every latch of both registers reads `q` = 1 from the first iteration on;
  - every tristate and bus line stays "x".

Two outcomes of the code differ from what a reader of the demo might expect:

- **r2's outputs.** r2 is never written, but it does not read `0`. Its latches are built with all
  states at 0 and see a gated clock of 0, so they come to `q` = 1 in the first pass. Its `dOut`
  tristates are never recomputed and stay "x". `Driver.RegisterSamples` states this for one sample and `Driver.RunSamples` for all 25.
- **The write to r1.** r1 likewise reads `q` = 1 before the write of iteration 2. The write of 1s
  therefore changes nothing visible.

## Model

| member | source | states |
|---|---|---|
| Components.Arity | mod.ts:103-120 | a gate reads one input (`not`) or two (binary gates); `custom`, `tristate` and `bus` read none |
| Gates.Code | mod.ts:3-5 | a known value is the 32-bit word 0 or 1 |
| Gates.Decode | mod.ts:3-5 | decoding a 0/1 word is the inverse of `Code` |
| Gates.Not | mod.ts:3-5 | `~a & 1` flips a known value |
| Gates.And | mod.ts:7-9 | `a && b` is 1 exactly when both are 1 |
| Gates.Nand | mod.ts:11-13 | 0 exactly when both are 1 |
| Gates.Or | mod.ts:15-17 | `a \|\| b` is 0 exactly when both are 0 |
| Gates.Nor | mod.ts:19-21 | 1 exactly when both are 0 |
| Gates.Xor | mod.ts:23-25 | `a ^ b` is 1 exactly when the operands differ, and is again 0 or 1 |
| Gates.Xnor | mod.ts:27-29 | 1 exactly when the operands are equal |
| Gates.NegatedGates | mod.ts:11-29 | `nand`, `nor` and `xnor` are `not` of `and`, `or` and `xor`; `not` is an involution |
| Gates.GatesCommute | mod.ts:7-29 | every binary gate is symmetric in its operands |
| Names.Qualify | mod.ts:38-64 | `${name}.${part}` is the name, a dot, then the part |
| Names.IndexText | 8bit-computer.ts:24-27 | `${i}` of a one-digit index is one decimal digit |
| Names.IndexTextInjective | 8bit-computer.ts:24-27 | distinct indices give distinct digits, and conversely |
| Names.QualifyInjective | mod.ts:38-64 | two ids of one group are equal exactly when their parts are |
| Names.QualifyInGroup | mod.ts:38-64 | `${name}.${part}` lies in the group `name` |
| Names.SubGroupInGroup | 8bit-computer.ts:24 | an id of sub-group `${name}.${sub}` lies in group `name` |
| Names.GroupsDisjoint | 8bit-computer.ts:93-128 | no id lies in two groups with distinct dot-free names |
| Names.DotFreeInNoGroup | 8bit-computer.ts:76-91 | a dot-free id such as `clock` lies in no group |
| Latches.Dff | mod.ts:31-68 | `createDFFComponent` returns five components |
| Latches.DffPartsDistinct | mod.ts:38-62 | the five part names are distinct, dot-free and differ from `clk` |
| Latches.DffShape | mod.ts:36-67 | five fresh gates at 0, named `${name}.${part}` in order; one `not`, four `nand`s; `q` and `q_` read each other |
| Latches.DffWiring | mod.ts:36-67 | the five ids are distinct; the latch reads only `clk`, `dIn` and its own ids |
| Latches.Dffe | mod.ts:70-84 | `createDFFEComponent` returns six components |
| Latches.DffeShape | mod.ts:76-83 | `${name}.clk` = `and(clk, dEnable)` first, then the latch of `createDFFComponent` clocked by it |
| Latches.DffeComponents | mod.ts:70-84 | the six components spelled out: ids, kinds, inputs, all states 0 |
| Latches.DffeWiring | mod.ts:70-84 | the six ids are distinct; the gated latch reads only `clk`, `dIn`, `dEnable` and its own ids |
| Latches.DffeDistinct | mod.ts:76-83 | the gated clock's id differs from the five latch ids |
| Latches.DffeReadsOnly | mod.ts:76-83 | the gated latch reads nothing from outside but `clk`, `dIn`, `dEnable` |
| Latches.DffeIds | mod.ts:76-83 | component k is named `${name}.${DffeParts[k]}`; the six parts are distinct and dot-free |
| Engine.CreateComponentLookup | mod.ts:86-93 | the fold yields a lookup whose keys are the list's ids; each id leads to the last component carrying it |
| Engine.LookupExtend | mod.ts:89-91 | one reduce step keeps that property, with the newer component taking over its id |
| Engine.IdsOfAppend | mod.ts:89-91 | appending a component adds its id to the ids |
| Engine.LookupOfDistinct | mod.ts:86-93 | with distinct ids the lookup leads each id back to its own component |
| Engine.ResolvableShape | mod.ts:111-124 | whether every lookup of a pass succeeds depends on ids, kinds and inputs, not on states |
| Engine.Gate | mod.ts:106-121 | the new state of a gate is "x" exactly when an input it reads is "x" |
| Engine.Recompute | mod.ts:111-124 | a non-gate keeps its state; a gate gets "x" exactly when an input read through the lookup is "x" |
| Engine.Upto | mod.ts:111-124 | midway, the visited prefix may differ; the rest and all non-gates are unchanged; ids, kinds and inputs stay |
| Engine.Pass | mod.ts:95-125 | one `evaluate` keeps length, ids, kinds and inputs; it leaves `custom`, `tristate` and `bus` states alone |
| Engine.Passes | 8bit-computer.ts:168-170 | repeated passes keep the same shape and the non-gate states |
| Engine.BinaryOp | mod.ts:99-110 | `binaryOp` rewrites only component i: "x" if an input is "x", else the gate function of the two states |
| Engine.Evaluate | mod.ts:95-125 | the in-place loop over the array leaves it equal to `Pass` of its old contents |
| Engine.EvaluateAt | mod.ts:111-124 | the loop body rewrites only component i, to `Recompute` of the current array |
| Engine.UptoStable | mod.ts:111-124 | a component keeps, for the rest of the pass, the value it got when visited |
| Engine.UptoNextKeeps | mod.ts:111-124 | visiting one component changes no other |
| Engine.UptoAgrees | mod.ts:111-124 | midway, each visited component already holds its end-of-pass value |
| Engine.UptoIsMixed | mod.ts:111-124 | midway, the network is the new prefix followed by the old suffix |
| Engine.PassAt | mod.ts:111-124 | component j is recomputed from new values before j and old values from j on; a later feedback input gives the previous pass's value |
| Engine.UptoKeepsKnown | mod.ts:106-121 | from all-known states, every prefix of a pass stays all-known |
| Engine.PassKeepsKnown | mod.ts:106-121 | a pass from all-known states yields all-known states: "x" never arises from 0/1 |
| Engine.PassesKeepKnown | mod.ts:106-121 | the same for any number of passes |
| Engine.PassAbsorbsUnknown | mod.ts:103-122 | a gate reading "x" gets "x", even where its other input alone would decide a known gate |
| LatchBehaviour.DffeIsAt | mod.ts:70-84 | the six builder components at p, with non-gate feeders and a lookup leading to them, satisfy `DffeAt` |
| LatchBehaviour.DffeAtShape | mod.ts:111-124 | the latch wiring survives any change of states |
| LatchBehaviour.GateAt | mod.ts:111-124 | `PassAt` for a gate: earlier inputs are read new, later ones old |
| LatchBehaviour.DffePass | mod.ts:76-124 | one pass moves the six latch states by `LatchStep`, given the clock, enable and data signals |
| LatchBehaviour.LatchGate | mod.ts:36-83 | the new state of each of the six gates: `q` reads the old `q_`, every other gate reads new values |
| LatchBehaviour.PassKeepsFeeders | mod.ts:111-124 | a pass keeps the non-gate signals feeding the latch |
| LatchBehaviour.LatchFollows | mod.ts:44-66 | with clock and enable at 1, a known d and a known `q_`, two steps give `q` = d and `q_` = not d, whatever `q` held |
| LatchBehaviour.LatchKeepsFollowing | mod.ts:44-66 | it stays so for any number of steps from two on |
| LatchBehaviour.LatchHolds | mod.ts:49-66 | with the gated clock at 0, a step sets `q` to not `q_` and keeps `q_` |
| LatchBehaviour.LatchHoldsForever | mod.ts:49-66 | a latch with `q_` = not `q` and its gated clock at 0 holds both for any number of steps |
| LatchBehaviour.LatchStartsHigh | mod.ts:37-66 | an all-zero latch with its gated clock at 0 reaches `q` = 1, `q_` = 0 in one step |
| LatchBehaviour.LatchStaysHigh | mod.ts:37-66 | `q` = 1, `q_` = 0 survives a step exactly when the gated clock is 0 or the data is 1 |
| LatchBehaviour.LatchStaysHighFor | mod.ts:37-66 | it survives any number of such steps |
| LatchBehaviour.LatchStepsFirst | mod.ts:111-124 | n steps are one step followed by n - 1 |
| LatchBehaviour.LatchStepsNext | mod.ts:111-124 | n + 1 steps are n steps followed by one |
| LatchBehaviour.LatchSettlesHigh | mod.ts:37-66 | an all-zero latch with its gated clock at 0 reads `q` = 1, `q_` = 0 after any n >= 1 steps |
| LatchBehaviour.DffePasses | mod.ts:76-124 | n passes move the latch by n `LatchStep`s with the signals the network holds |
| LatchBehaviour.PassesKeepDffe | mod.ts:111-124 | passes keep the latch wiring and the three signals it reads |
| LatchBehaviour.DffePassesNext | mod.ts:111-124 | pass m + 1 moves the latch one step further |
| LatchBehaviour.DffeFollowsData | mod.ts:50-124 | clock and enable at 1, a known dIn and a known `q_`, whatever the rest of the network holds: after n >= 2 passes `q` = dIn and `q_` = not dIn |
| LatchBehaviour.LatchStuckUnknown | mod.ts:44-66 | a latch whose `q_` is "x" keeps `q_` at "x" and has `q` at "x" after any step, whatever clock, enable and d are |
| LatchBehaviour.DffeStuckUnknown | mod.ts:50-124 | a flip-flop whose `q_` is "x" has `q` and `q_` at "x" after any n >= 1 passes, so the known `q_` of `DffeFollowsData` cannot be dropped |
| LatchBehaviour.DffeHolds | mod.ts:44-124 | gated clock at 0 and `q_` = not `q`: any number of passes keeps `q` and `q_`, for any known dIn |
| LatchBehaviour.DffeStartsHigh | mod.ts:37-124 | a freshly built latch with its gated clock at 0 has `q` = 1, `q_` = 0 after one pass |
| Computer.NumberedIdShape | 8bit-computer.ts:24-65 | `dOut${i}`, `dffe${i}` and `d${i}` ids lie in their group and carry the digit at a fixed offset |
| Computer.OutputIdInjective | 8bit-computer.ts:27-40 | two `${name}.dOut${i}` ids are equal exactly when the indices are |
| Computer.DipSwitch | 8bit-computer.ts:36-47 | the first n switches of a bank are n components |
| Computer.DipSwitchAt | 8bit-computer.ts:38-45 | component k is switch k + 1: `custom`, no inputs, state 0 |
| Computer.Create8BitDipSwitchComponent | 8bit-computer.ts:36-47 | the push loop builds exactly the eight switches `name.dOut1`..`dOut8` |
| Computer.MemoryCell | 8bit-computer.ts:23-31 | one bit is seven components |
| Computer.CellShape | 8bit-computer.ts:23-31 | the six components of `name.dffe${i}`, then the tristate reading its `q` and `dOutput`, at "x" |
| Computer.Memory | 8bit-computer.ts:21-33 | the first n bits are 7n components |
| Computer.MemorySlots | 8bit-computer.ts:21-33 | slot i of the list holds bit i, fed by `dIn[i-1]` |
| Computer.Create8BitMemoryComponent | 8bit-computer.ts:14-34 | the concat/push loop builds exactly the 56-component layout `Memory` |
| Computer.MemoryAt | 8bit-computer.ts:22-32 | component 7(i-1)+k is part k of latch `dffe${i}` for k < 6, then tristate `dOut${i}` |
| Computer.DataBus | 8bit-computer.ts:49-72 | the first n lines of a bus are n components |
| Computer.DataBusAt | 8bit-computer.ts:63-70 | component k is line `d${k+1}`: a `bus` reading `dIn[k]`, at "x" |
| Computer.Create8BitDataBusComponent | 8bit-computer.ts:49-72 | the push loop builds exactly the eight bus lines |
| Computer.DipSwitchIds | 8bit-computer.ts:38-45 | a switch bank's ids are distinct and lie in its group |
| Computer.DataBusIds | 8bit-computer.ts:63-70 | a bus's ids are distinct and lie in its group |
| Computer.CellIds | 8bit-computer.ts:22-32 | a bit's seven ids are distinct, lie in the register's group and carry its number |
| Computer.NumberedAppend | 8bit-computer.ts:22-32 | appending bit n's ids to those numbered below n keeps all ids distinct |
| Computer.MemoryIds | 8bit-computer.ts:21-33 | the ids of the first n bits are distinct and numbered 1..n |
| Computer.RegisterIds | 8bit-computer.ts:14-34 | a register's 56 ids are distinct and lie in its group |
| EightBit.Register | 8bit-computer.ts:96-127 | each register is 56 components |
| EightBit.Network | 8bit-computer.ts:74-138 | the assembled list has 147 components |
| EightBit.AssembleComponents | 8bit-computer.ts:74-138 | calling the builders in the source's order yields that list |
| EightBit.LiteralIds | 8bit-computer.ts:96-137 | the literal ids the list spells out are the ones the builders make |
| EightBit.EnableIds | 8bit-computer.ts:99-116 | the write and output enables are switch 1 or 2 of their banks |
| EightBit.DataInputId | 8bit-computer.ts:101-125 | data input i is `input_switch.dOut${i}` |
| EightBit.BusInputIds | 8bit-computer.ts:128-137 | bus line i reads `r1.dOut${i}` and `r2.dOut${i}` |
| EightBit.NetworkAt | 8bit-computer.ts:74-138 | component k of the list, by the part it lies in |
| EightBit.BanksAt | 8bit-computer.ts:93-128 | switch i of each bank sits at 2+i, 10+i and 18+i; bus line i sits at 138+i |
| EightBit.RegisterAt | 8bit-computer.ts:96-127 | bit i of r1 starts at 20+7i and bit i of r2 at 76+7i: the latch's six gates, then the tristate |
| EightBit.HeadAt | 8bit-computer.ts:75-92 | `clock` at 0, `always_high` at 1 (state 1), `always_low` at 2 |
| EightBit.LatchGatesAt | 8bit-computer.ts:96-127 | the six gates of each gated latch at their positions |
| EightBit.GroupNamesApart | 8bit-computer.ts:93-128 | the six group names are dot-free and distinct |
| EightBit.SwitchPartIds | 8bit-computer.ts:75-95 | the first 27 ids are distinct and lie outside the groups `r1`, `r2`, `data_bus` |
| EightBit.FirstRegisterIds | 8bit-computer.ts:75-111 | ids stay distinct once r1 is appended |
| EightBit.SecondRegisterIds | 8bit-computer.ts:75-127 | ids stay distinct once r2 is appended |
| EightBit.NetworkIdsDistinct | 8bit-computer.ts:74-138 | no two components of the network share an id |
| EightBit.NetworkLayout | 8bit-computer.ts:74-138 | the network has the layout `Layout`: distinct ids, every part at its position |
| EightBit.Cover | 8bit-computer.ts:96-127 | indices 27..138 are exactly the sixteen seven-component register bits |
| EightBit.BitGates | 8bit-computer.ts:22-31 | a bit's latch gates, its `q` id and its tristate's id and inputs |
| EightBit.LookupAt | 8bit-computer.ts:139 | the lookup built for the layout leads the id at index k back to k |
| EightBit.BankPositions | 8bit-computer.ts:139 | the lookup leads each switch and bus line to its position |
| EightBit.RegisterPositions | 8bit-computer.ts:139 | the lookup leads each `q` and each tristate to its position |
| EightBit.LayoutPositions | 8bit-computer.ts:139 | the lookup leads every id the loop writes or reads to its position |
| EightBit.WiringShape | mod.ts:111-124 | the wiring does not depend on states |
| EightBit.LatchWired | mod.ts:103-120 | every lookup of a latch gate succeeds |
| EightBit.WiringResolvable | mod.ts:103-120 | in the wired network, no lookup of a pass fails |
| EightBit.BitWired | mod.ts:103-120 | every lookup of a register bit succeeds |
| EightBit.LayoutKinds | 8bit-computer.ts:75-95 | the clock, the constant lines and all switches are `custom` |
| EightBit.LayoutFeeders | 8bit-computer.ts:96-127 | each latch's clock, data and enable signals are non-gates the lookup finds |
| EightBit.LayoutIndexed | 8bit-computer.ts:139 | the lookup leads every latch gate back to its index |
| EightBit.LayoutLatch | 8bit-computer.ts:96-127 | every register bit is a `DffeAt` gated latch followed by a tristate |
| EightBit.BitLatch | 8bit-computer.ts:22-25 | a laid-out bit with non-gate feeders holds a `DffeAt` latch |
| EightBit.LayoutWiring | 8bit-computer.ts:74-139 | the network with its lookup has the wiring the driver relies on |
| EightBit.BitOutside | 8bit-computer.ts:96-127 | the outside ids a bit reads are those of the clock and its switches |
| EightBit.InputsNamed | 8bit-computer.ts:74-138 | an input equal to the id of a list component names a component |
| EightBit.BitInputs | 8bit-computer.ts:22-31 | what each component of a bit reads, as ids of list components |
| EightBit.BitReads | 8bit-computer.ts:22-31 | every input of a register bit names a component of the list |
| EightBit.LineReads | 8bit-computer.ts:128-137 | bus line i reads the tristates of bit i of both registers |
| EightBit.SwitchReads | 8bit-computer.ts:75-95 | the clock, constant lines and switches read nothing |
| EightBit.RegisterReads | 8bit-computer.ts:96-127 | register components read only ids of the list |
| EightBit.BusReads | 8bit-computer.ts:128-137 | bus lines read only ids of the list |
| EightBit.LayoutClosed | 8bit-computer.ts:74-138 | every input id of every component names a component of the list |
| Driver.SetState | 8bit-computer.ts:147 | `componentLookup[id].state = v` changes that one state and nothing else |
| Driver.SetAll | 8bit-computer.ts:147-154 | assignments in order set each named state and leave every other component alone |
| Driver.ToggleClock | 8bit-computer.ts:142-144 | the clock flips to the other known value unless it is "x"; nothing else changes |
| Driver.SetSwitches | 8bit-computer.ts:146-166 | setting switches keeps the network's shape |
| Driver.Prepare | 8bit-computer.ts:142-166 | toggling and setting switches keeps the network's shape |
| Driver.Step | 8bit-computer.ts:141-170 | one iteration keeps the shape, and the lookups of passes and of the loop still succeed |
| Driver.States | 8bit-computer.ts:141-173 | so does any number of iterations |
| Driver.DriverPositions | 8bit-computer.ts:139 | the loop's ids lead to the data, write and output switch positions |
| Driver.WiringDriveable | 8bit-computer.ts:141-170 | in the wired network every lookup of the loop and of the passes succeeds |
| Driver.SetSwitchesAt | 8bit-computer.ts:146-166 | per position: iteration 2 sets the data switches and r1's write switch to 1, iteration 4 resets it, output switches alternate; nothing else changes |
| Driver.LayoutDriven | 8bit-computer.ts:74-139 | the assembled network is the network after no iteration |
| Driver.BitFresh | 8bit-computer.ts:22-31 | an assembled bit is an all-zero latch with its tristate at "x" |
| Driver.StepSwitches | 8bit-computer.ts:142-166 | iteration n sets the clock to its value after n + 1 iterations; the switches change as `Switched` says; nothing else does |
| Driver.SwitchesKeepRest | 8bit-computer.ts:142-166 | the start of an iteration leaves registers and bus alone |
| Driver.GatedClock | 8bit-computer.ts:142-158 | `and(clock, write switch)` is always known; it is 1 only for r1 after 3 iterations, when the data switches read 1 |
| Driver.StepLatch | 8bit-computer.ts:168-170 | an iteration's passes bring a fresh latch to `q` = 1, and keep a latch at `q` = 1 there |
| Driver.BankSwitched | 8bit-computer.ts:146-166 | the switches of iteration n move each bank from its value after n iterations to its value after n + 1 |
| Driver.BitKept | 8bit-computer.ts:146-166 | a bit untouched by the switches keeps its state |
| Driver.SwitchesBanks | 8bit-computer.ts:142-166 | the start of iteration n moves every bank to its value after n + 1 iterations |
| Driver.SwitchesBits | 8bit-computer.ts:142-166 | the start of iteration n leaves every register bit as it was |
| Driver.SwitchesPrepared | 8bit-computer.ts:142-166 | before the passes, the switches are updated and the latches are unchanged |
| Driver.BitPassed | 8bit-computer.ts:168-170 | the passes of iteration n - 1 move each bit to its state after n iterations |
| Driver.BitSettled | 8bit-computer.ts:168-170 | a bit with its tristate unchanged and `q` = 1, `q_` = 0 is as after n >= 1 iterations |
| Driver.PassesDriven | 8bit-computer.ts:168-170 | the passes of an iteration yield the network after that iteration |
| Driver.PassesWiring | 8bit-computer.ts:168-170 | the passes keep the wiring |
| Driver.PassesBanks | 8bit-computer.ts:168-170 | the passes change neither the clock, the switches nor the bus |
| Driver.PassesBits | 8bit-computer.ts:168-170 | the passes move every bit to its state after the iteration |
| Driver.StepDriven | 8bit-computer.ts:141-170 | iteration n - 1 takes the network after n - 1 iterations to the network after n |
| Driver.IterationsDriven | 8bit-computer.ts:141-173 | n iterations from the start give the network after n iterations |
| Driver.RunDriven | 8bit-computer.ts:74-173 | from the assembled network and its lookup, `Driven` holds after every n |
| Driver.SwitchSamples | 8bit-computer.ts:141-172 | a sample after n >= 1 iterations: the clock is 1 iff n is odd; r1's write switch is 1 iff n is 3 or 4; data switches are 1 iff n >= 3; output switches alternate; bus lines are "x" |
| Driver.RegisterSamples | 8bit-computer.ts:96-172 | a sample after n >= 1 iterations: every `q` of r1 and r2 reads 1, every `dOut` tristate reads "x" |
| Driver.SampleRegisters | 8bit-computer.ts:141-172 | sample k of any run from a list laid out as the network shows every `q` of r1 and r2 at 1 and every `dOut` at "x" |
| Driver.SampledRegisters | 8bit-computer.ts:141-172 | the same for every sample of such a run |
| Driver.RunSamples | 8bit-computer.ts:74-173 | each of the 25 samples of the script's run shows every `q` of r1 and r2 at 1 and every `dOut` tristate at "x" |
| Driver.SampledNext | 8bit-computer.ts:172 | appending the sample of the next iteration keeps sample k equal to the network after k + 1 iterations |
| Driver.NetworkDriveable | 8bit-computer.ts:139 | with the lookup built for the assembled list, the loop and every pass can run |
| Driver.SetSwitch | 8bit-computer.ts:147 | the array assignment equals `SetState` |
| Driver.FlipClock | 8bit-computer.ts:142-144 | the guarded clock flip on the array equals `ToggleClock` |
| Driver.LoadInputs | 8bit-computer.ts:147-154 | the eight data switch assignments equal `SetAll` |
| Driver.ApplySwitches | 8bit-computer.ts:146-166 | the switch assignments on the array equal `SetSwitches` |
| Driver.Iterate | 8bit-computer.ts:142-170 | the loop body on the array equals `Step` |
| Driver.Simulate | 8bit-computer.ts:141-173 | after `runFor` = 25 iterations the array is `States(list, 25)`; sample k is the network after k + 1 iterations |
| Driver.Run | 8bit-computer.ts:74-173 | the script builds the lookup of the assembled list and its run is as `Simulate` says |

## Left out

- `Trace` and its `sample`, `getTraces` and `getAllTraces` live in trace.ts. trace.ts is not part
  of this model. A sample is modelled as the map from every id to its state (`Snapshot`), and the
  trace as the sequence of samples.
- The console output of 8bit-computer.ts:175-230 is rendering only.
- app.ts is a demo script that drives the same engine. It is not part of this model.
- `tristate` and `bus` components have no behaviour in the code: `evaluate` has no branch for them.
  The model gives them none, so they keep "x".
- A missing id makes the source throw at a lookup. Here every such lookup is a precondition
  (`Wired`, `Resolvable`, `Known`, `Driveable`) instead of a modelled error path. For the
  assembled network it is proved to hold (`LayoutClosed`, `NetworkDriveable`).
- `Gates.Not` is defined on 0 and 1 only. `~"x" & 1` relies on JavaScript coercion, and every
  caller guards against "x" first.
- A `custom` component returns early without being written. This is modelled as keeping its state,
  like the kinds that have no branch.
- No convergence or fixed-point property is claimed for general networks. The code promises only
  single passes.
- A string id is a `seq<char>`. No claim is made about ids outside the template the builders use.
