/** The latch builders of mod.ts: a cross-coupled NAND latch (`createDFFComponent`)
    and the same latch behind an AND-gated clock (`createDFFEComponent`). They
    only build component lists; nothing is evaluated here. */
module Latches {
  import opened Components
  import opened Names

  /** Every input a group of components reads is one of `outside` or an id of the group. */
  predicate ReadsOnly(group: seq<Component>, outside: set<string>) {
    forall k, m :: 0 <= k < |group| && 0 <= m < |group[k].inputs| ==>
      group[k].inputs[m] in outside + IdsOf(group)
  }

  /** Every component of the group is a gate with exactly as many inputs as it reads,
      and starts at 0. */
  predicate FreshGates(group: seq<Component>) {
    forall k :: 0 <= k < |group| ==>
      IsBase(group[k].kind) && |group[k].inputs| == Arity(group[k].kind) && group[k].state == Zero
  }

  /** The component parts of a latch named `name`, in the order the builder emits them. */
  const DffParts: seq<string> := ["not_d_in", "d_nand_a", "q", "d_nand_c", "q_"]

  lemma DffPartsDistinct()
    ensures forall i, j :: 0 <= i < j < |DffParts| ==> DffParts[i] != DffParts[j]
    ensures forall i :: 0 <= i < |DffParts| ==> DotFree(DffParts[i]) && DffParts[i] != "clk"
  {
    assert DffParts[1][7] != DffParts[3][7];
    assert DffParts[0][0] != DffParts[1][0];
    assert DffParts[0][0] != DffParts[3][0];
  }

  /** `createDFFComponent(name, clk, dIn)`. */
  function Dff(name: string, clk: string, dIn: string): (r: seq<Component>)
    ensures |r| == 5
  {
    var notDIn := Qualify(name, "not_d_in");
    var dNandA := Qualify(name, "d_nand_a");
    var q := Qualify(name, "q");
    var dNandC := Qualify(name, "d_nand_c");
    var qBar := Qualify(name, "q_");
    [
      Component(notDIn, Not, [dIn], Zero),
      Component(dNandA, Nand, [dIn, clk], Zero),
      Component(q, Nand, [dNandA, qBar], Zero),
      Component(dNandC, Nand, [notDIn, clk], Zero),
      Component(qBar, Nand, [dNandC, q], Zero)
    ]
  }

  /** A latch is five fresh gates named `${name}.${part}` for the five parts in order: a `not`
      and four `nand`s, with `q` and `q_` reading each other. */
  lemma DffShape(name: string, clk: string, dIn: string)
    ensures var r := Dff(name, clk, dIn);
            FreshGates(r) &&
            (forall k :: 0 <= k < 5 ==> r[k].id == Qualify(name, DffParts[k])) &&
            r[0].kind == Not && (forall k :: 1 <= k < 5 ==> r[k].kind == Nand) &&
            r[2].inputs[1] == r[4].id && r[4].inputs[1] == r[2].id
  {
  }

  /** The five ids of a latch are distinct, and it reads nothing but its clock, its data
      input and its own components. */
  lemma DffWiring(name: string, clk: string, dIn: string)
    ensures DistinctIds(Dff(name, clk, dIn))
    ensures ReadsOnly(Dff(name, clk, dIn), {clk, dIn})
  {
    var r := Dff(name, clk, dIn);
    DffShape(name, clk, dIn);
    DffPartsDistinct();
    forall i, j | 0 <= i < j < 5 ensures r[i].id != r[j].id {
      QualifyInjective(name, DffParts[i], DffParts[j]);
    }
    IdsOfMembers(r);
    assert r[0].id in IdsOf(r) && r[1].id in IdsOf(r) && r[2].id in IdsOf(r);
    assert r[3].id in IdsOf(r) && r[4].id in IdsOf(r);
  }

  lemma IdsOfMembers(r: seq<Component>)
    ensures forall k :: 0 <= k < |r| ==> r[k].id in IdsOf(r)
  {
  }

  /** `createDFFEComponent(name, clk, dIn, dEnable)`: the gated clock `name.clk`, then a latch
      clocked by it. */
  function Dffe(name: string, clk: string, dIn: string, dEnable: string): (r: seq<Component>)
    ensures |r| == 6
  {
    var gatedClock := Component(Qualify(name, "clk"), And, [clk, dEnable], Zero);
    [gatedClock] + Dff(name, gatedClock.id, dIn)
  }

  /** A gated latch is six fresh gates: `name.clk` = `and(clk, dEnable)`, then the latch of
      `createDFFComponent` clocked by it. */
  lemma DffeShape(name: string, clk: string, dIn: string, dEnable: string)
    ensures var r := Dffe(name, clk, dIn, dEnable);
            FreshGates(r) &&
            r[0].id == Qualify(name, "clk") && r[0].kind == And && r[0].inputs == [clk, dEnable] &&
            r[1..] == Dff(name, r[0].id, dIn)
  {
    DffShape(name, Qualify(name, "clk"), dIn);
  }

  /** The six components of a gated latch spelled out, in order: `name.clk` = `and(clk, dEnable)`,
      `not_d_in` = `not(dIn)`, `d_nand_a` = `nand(dIn, name.clk)`, `q` = `nand(d_nand_a, q_)`,
      `d_nand_c` = `nand(not_d_in, name.clk)`, `q_` = `nand(d_nand_c, q)`, all at 0. */
  lemma DffeComponents(name: string, clk: string, dIn: string, dEnable: string)
    ensures var r := Dffe(name, clk, dIn, dEnable);
            var (gated, notDIn, dNandA) := (Qualify(name, "clk"), Qualify(name, "not_d_in"), Qualify(name, "d_nand_a"));
            var (q, dNandC, qBar) := (Qualify(name, "q"), Qualify(name, "d_nand_c"), Qualify(name, "q_"));
            r[0] == Component(gated, And, [clk, dEnable], Zero) &&
            r[1] == Component(notDIn, Not, [dIn], Zero) &&
            r[2] == Component(dNandA, Nand, [dIn, gated], Zero) &&
            r[3] == Component(q, Nand, [dNandA, qBar], Zero) &&
            r[4] == Component(dNandC, Nand, [notDIn, gated], Zero) &&
            r[5] == Component(qBar, Nand, [dNandC, q], Zero)
  {
  }

  /** The six ids of a gated latch are distinct, and it reads nothing but its clock, its
      enable, its data input and its own components. */
  lemma DffeWiring(name: string, clk: string, dIn: string, dEnable: string)
    ensures DistinctIds(Dffe(name, clk, dIn, dEnable))
    ensures ReadsOnly(Dffe(name, clk, dIn, dEnable), {clk, dIn, dEnable})
  {
    DffeDistinct(name, clk, dIn, dEnable);
    DffeReadsOnly(name, clk, dIn, dEnable);
  }

  lemma DffeDistinct(name: string, clk: string, dIn: string, dEnable: string)
    ensures DistinctIds(Dffe(name, clk, dIn, dEnable))
  {
    var r := Dffe(name, clk, dIn, dEnable);
    var gated := Qualify(name, "clk");
    var latch := Dff(name, gated, dIn);
    DffeShape(name, clk, dIn, dEnable);
    DffShape(name, gated, dIn);
    DffPartsDistinct();
    DffWiring(name, gated, dIn);
    assert forall k :: 1 <= k < 6 ==> r[k] == latch[k - 1];
    forall j | 1 <= j < 6 ensures r[0].id != r[j].id {
      QualifyInjective(name, "clk", DffParts[j - 1]);
    }
  }

  lemma DffeReadsOnly(name: string, clk: string, dIn: string, dEnable: string)
    ensures ReadsOnly(Dffe(name, clk, dIn, dEnable), {clk, dIn, dEnable})
  {
    var r := Dffe(name, clk, dIn, dEnable);
    var gated := Qualify(name, "clk");
    var latch := Dff(name, gated, dIn);
    DffeShape(name, clk, dIn, dEnable);
    DffWiring(name, gated, dIn);
    IdsOfMembers(r);
    IdsOfMembers(latch);
    assert IdsOf(latch) <= IdsOf(r) by {
      forall x | x in IdsOf(latch) ensures x in IdsOf(r) {
        var i :| 0 <= i < 5 && latch[i].id == x;
        assert r[i + 1].id == x;
      }
    }
    assert r[0].id in IdsOf(r);
    forall k, m | 0 <= k < 6 && 0 <= m < |r[k].inputs|
      ensures r[k].inputs[m] in {clk, dIn, dEnable} + IdsOf(r)
    {
      if k > 0 {
        assert r[k].inputs[m] == latch[k - 1].inputs[m];
        assert r[k].inputs[m] in {gated, dIn} + IdsOf(latch);
      }
    }
  }

  /** In the components of `Dffe(name, ...)`, the part named `Qualify(name, part)` is at index k. */
  const DffeParts: seq<string> := ["clk"] + DffParts

  lemma DffeIds(name: string, clk: string, dIn: string, dEnable: string)
    ensures forall k :: 0 <= k < 6 ==> Dffe(name, clk, dIn, dEnable)[k].id == Qualify(name, DffeParts[k])
    ensures forall i, j :: 0 <= i < j < 6 ==> DffeParts[i] != DffeParts[j]
    ensures forall k :: 0 <= k < 6 ==> DotFree(DffeParts[k])
  {
    DffPartsDistinct();
    DffeShape(name, clk, dIn, dEnable);
    DffShape(name, Qualify(name, "clk"), dIn);
    var r := Dffe(name, clk, dIn, dEnable);
    assert forall k :: 1 <= k < 6 ==> r[k] == r[1..][k - 1];
  }
}
