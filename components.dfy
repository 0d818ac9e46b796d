/** The data model of the simulator: signal values, component kinds and the
    component record (component.ts). */
module Components {

  /** `State`: a signal line carries 0, 1 or the unknown marker "x". */
  datatype State = Zero | One | X

  /** `ValidState`: the two known values 0 and 1. */
  type ValidState = s: State | s != X witness Zero

  /** `ComponentType`: the seven gate kinds, plus `custom` (driven from outside),
      `tristate` and `bus`. */
  datatype ComponentType = Not | And | Nand | Or | Nor | Xor | Xnor | Custom | TriState | Bus

  /** Membership in `BaseComponentType`, the seven gate kinds. */
  predicate IsBase(t: ComponentType) {
    !(t.Custom? || t.TriState? || t.Bus?)
  }

  type BaseComponentType = t: ComponentType | IsBase(t) witness Not

  /** How many entries of `inputs` a component of kind `t` reads when it is evaluated. */
  function Arity(t: ComponentType): (n: nat)
    ensures n <= 2
    ensures IsBase(t) <==> n > 0
    ensures n == 1 <==> t == Not
  {
    if t == Not then 1 else if IsBase(t) then 2 else 0
  }

  /** `Component`: an id, a kind, the ordered ids of the components it reads, and its state. */
  datatype Component = Component(id: string, kind: ComponentType, inputs: seq<string>, state: State)

  /** `Sample`: the state of each component, by id. */
  type Sample = map<string, State>

  /** Every component's state is 0 or 1. */
  predicate AllKnown(s: seq<Component>) {
    forall k :: 0 <= k < |s| ==> s[k].state != X
  }

  /** The ids of a component list. */
  function IdsOf(s: seq<Component>): set<string> {
    set k | 0 <= k < |s| :: s[k].id
  }

  /** No two components of the list share an id. */
  predicate DistinctIds(s: seq<Component>) {
    forall i, j :: 0 <= i < j < |s| ==> s[i].id != s[j].id
  }

  /** `s` and `t` hold the same components, up to their states. */
  predicate SameShape(s: seq<Component>, t: seq<Component>) {
    |s| == |t| &&
    forall k :: 0 <= k < |s| ==>
      s[k].id == t[k].id && s[k].kind == t[k].kind && s[k].inputs == t[k].inputs
  }
}
