/** The propagation engine of mod.ts: `createComponentLookup` and `evaluate`.

    The network is an array of component records. The lookup maps an id to the
    index of its record in that array; reading `components[lookup[id]]` is what
    reading `componentLookup[id]` is in the source, where lookup and array alias
    the same objects. So a record rewritten earlier in a pass is seen by every
    later read in the same pass. */
module Engine {
  import opened Components
  import Gates

  /** `lookup` is the record `createComponentLookup(s)` builds: it has exactly the ids of `s`,
      and each id leads to the LAST component carrying it. */
  predicate IsLookupOf(lookup: map<string, nat>, s: seq<Component>) {
    lookup.Keys == IdsOf(s) &&
    forall id :: id in lookup ==>
      lookup[id] < |s| && s[lookup[id]].id == id &&
      forall j :: lookup[id] < j < |s| ==> s[j].id != id
  }

  /** `createComponentLookup`: a left fold over the list, each component overwriting the
      entry of its id. */
  method CreateComponentLookup(components: seq<Component>) returns (lookup: map<string, nat>)
    ensures IsLookupOf(lookup, components)
  {
    lookup := map[];
    for i := 0 to |components|
      invariant IsLookupOf(lookup, components[..i])
    {
      var item := components[i];
      LookupExtend(lookup, components[..i], item);
      assert components[..i + 1] == components[..i] + [item];
      lookup := lookup[item.id := i];
    }
    assert components[..|components|] == components;
  }

  /** One step of the fold: the new component takes over its id. */
  lemma LookupExtend(lookup: map<string, nat>, s: seq<Component>, c: Component)
    requires IsLookupOf(lookup, s)
    ensures IsLookupOf(lookup[c.id := |s|], s + [c])
  {
    var t, l := s + [c], lookup[c.id := |s|];
    IdsOfAppend(s, c);
    forall id | id in l
      ensures l[id] < |t| && t[l[id]].id == id && forall j :: l[id] < j < |t| ==> t[j].id != id
    {
      if id != c.id {
        assert l[id] == lookup[id] && t[lookup[id]] == s[lookup[id]];
        forall j | lookup[id] < j < |t| ensures t[j].id != id {
          if j < |s| { assert t[j] == s[j]; }
        }
      }
    }
  }

  lemma IdsOfAppend(s: seq<Component>, c: Component)
    ensures IdsOf(s + [c]) == IdsOf(s) + {c.id}
  {
    var t := s + [c];
    forall x | x in IdsOf(t) ensures x in IdsOf(s) + {c.id} {
      var k :| 0 <= k < |t| && t[k].id == x;
      if k < |s| { assert s[k].id == x; }
    }
    forall x | x in IdsOf(s) ensures x in IdsOf(t) {
      var k :| 0 <= k < |s| && s[k].id == x;
      assert t[k].id == x;
    }
    assert t[|s|].id == c.id;
  }

  /** With distinct ids, the lookup leads every id back to its own component. */
  lemma {:induction false} LookupOfDistinct(lookup: map<string, nat>, s: seq<Component>, k: nat)
    requires IsLookupOf(lookup, s) && DistinctIds(s) && k < |s|
    ensures s[k].id in lookup && lookup[s[k].id] == k
  {
    assert s[k].id in IdsOf(s);
  }

  /** A component of kind `kind` reading `inputs` can be evaluated in a network of `n`
      components: it has the inputs its kind reads, and each is found by the lookup. */
  predicate Wired(kind: ComponentType, inputs: seq<string>, lookup: map<string, nat>, n: nat) {
    Arity(kind) <= |inputs| &&
    forall m :: 0 <= m < Arity(kind) ==> inputs[m] in lookup && lookup[inputs[m]] < n
  }

  /** Every component of `s` can be evaluated: no lookup in a pass fails. */
  predicate Resolvable(s: seq<Component>, lookup: map<string, nat>) {
    forall k :: 0 <= k < |s| ==> Wired(s[k].kind, s[k].inputs, lookup, |s|)
  }

  lemma ResolvableShape(s: seq<Component>, t: seq<Component>, lookup: map<string, nat>)
    requires SameShape(t, s) && Resolvable(s, lookup)
    ensures Resolvable(t, lookup)
  {
    assert forall k :: 0 <= k < |t| ==> t[k].kind == s[k].kind && t[k].inputs == s[k].inputs;
  }

  /** `componentLookup[id].state`. */
  function Read(t: seq<Component>, lookup: map<string, nat>, id: string): State
    requires id in lookup && lookup[id] < |t|
  {
    t[lookup[id]].state
  }

  /** What `evaluate` assigns to a gate of kind `kind` whose inputs read `a` (and `b`, for a
      binary gate): "x" as soon as something it reads is "x", whatever the other input. */
  function Gate(kind: BaseComponentType, a: State, b: State): (r: State)
    ensures r == X <==> a == X || (kind != Not && b == X)
  {
    if kind == Not then (if a == X then X else Gates.Not(a))
    else if a == X || b == X then X
    else if kind == And then Gates.And(a, b)
    else if kind == Nand then Gates.Nand(a, b)
    else if kind == Or then Gates.Or(a, b)
    else if kind == Nor then Gates.Nor(a, b)
    else if kind == Xor then Gates.Xor(a, b)
    else Gates.Xnor(a, b)
  }

  /** The state `evaluate` gives component `c` when the network reads `t`: a gate takes the
      value of its gate function, "x" if an input reads "x"; `custom`, `tristate` and `bus`
      components keep their state. */
  function Recompute(t: seq<Component>, lookup: map<string, nat>, c: Component): (r: State)
    requires Wired(c.kind, c.inputs, lookup, |t|)
    ensures !IsBase(c.kind) ==> r == c.state
    ensures IsBase(c.kind) ==>
      (r == X <==> Read(t, lookup, c.inputs[0]) == X ||
                   (c.kind != Not && Read(t, lookup, c.inputs[1]) == X))
  {
    if !IsBase(c.kind) then c.state
    else
      var a := Read(t, lookup, c.inputs[0]);
      var b := if c.kind == Not then a else Read(t, lookup, c.inputs[1]);
      Gate(c.kind, a, b)
  }

  /** The network after the first `n` components of one pass have been visited. */
  function Upto(s: seq<Component>, lookup: map<string, nat>, n: nat): (r: seq<Component>)
    requires Resolvable(s, lookup) && n <= |s|
    ensures SameShape(r, s)
    ensures forall k :: n <= k < |s| ==> r[k] == s[k]
    ensures forall k :: 0 <= k < |s| && !IsBase(s[k].kind) ==> r[k] == s[k]
    decreases n
  {
    if n == 0 then s
    else
      var t := Upto(s, lookup, n - 1);
      ResolvableShape(s, t, lookup);
      t[n - 1 := t[n - 1].(state := Recompute(t, lookup, t[n - 1]))]
  }

  /** One call of `evaluate`: every component visited once, in order. */
  function Pass(s: seq<Component>, lookup: map<string, nat>): (r: seq<Component>)
    requires Resolvable(s, lookup)
    ensures SameShape(r, s) && Resolvable(r, lookup)
    ensures forall k :: 0 <= k < |s| && !IsBase(s[k].kind) ==> r[k] == s[k]
  {
    var r := Upto(s, lookup, |s|);
    ResolvableShape(s, r, lookup);
    r
  }

  /** `n` successive calls of `evaluate`. */
  function Passes(s: seq<Component>, lookup: map<string, nat>, n: nat): (r: seq<Component>)
    requires Resolvable(s, lookup)
    ensures SameShape(r, s) && Resolvable(r, lookup)
    ensures forall k :: 0 <= k < |s| && !IsBase(s[k].kind) ==> r[k] == s[k]
  {
    if n == 0 then s else Pass(Passes(s, lookup, n - 1), lookup)
  }

  /** `binaryOp(logicFn, component)` for the component at index `i`. */
  method BinaryOp(components: array<Component>, lookup: map<string, nat>, i: nat,
                  logicFn: (ValidState, ValidState) -> ValidState)
    requires i < components.Length && 2 <= |components[i].inputs|
    requires Wired(And, components[i].inputs, lookup, components.Length)
    modifies components
    ensures var c := old(components[i]);
            var a := old(components[lookup[c.inputs[0]]]).state;
            var b := old(components[lookup[c.inputs[1]]]).state;
            components[..] == old(components[..])[i := c.(state := if a == X || b == X then X else logicFn(a, b))]
  {
    var component := components[i];
    var aOut := components[lookup[component.inputs[0]]];
    var bOut := components[lookup[component.inputs[1]]];
    components[i] := component.(state := if aOut.state == X || bOut.state == X then X
                                         else logicFn(aOut.state, bOut.state));
  }

  /** `evaluate(components, componentLookup)`: one pass over the array, in order, rewriting
      the state of each gate in place from the states its inputs have at that moment. */
  method Evaluate(components: array<Component>, lookup: map<string, nat>)
    requires Resolvable(components[..], lookup)
    modifies components
    ensures components[..] == Pass(old(components[..]), lookup)
  {
    ghost var s := components[..];
    for i := 0 to components.Length
      invariant components[..] == Upto(s, lookup, i)
    {
      ResolvableShape(s, components[..], lookup);
      EvaluateAt(components, lookup, i);
    }
  }

  /** The body of the loop of `evaluate` for the component at index `i`: a gate takes the
      value its function gives the states its inputs read now, any other component is left
      alone. */
  method EvaluateAt(components: array<Component>, lookup: map<string, nat>, i: nat)
    requires i < components.Length && Resolvable(components[..], lookup)
    modifies components
    ensures components[..] == old(components[..])[i := old(components[i]).(state := Recompute(old(components[..]), lookup, old(components[i])))]
  {
    assert Wired(components[i].kind, components[i].inputs, lookup, components.Length);
    var component := components[i];
    if component.kind == Custom {
    } else if component.kind == And {
      BinaryOp(components, lookup, i, Gates.And);
    } else if component.kind == Nand {
      BinaryOp(components, lookup, i, Gates.Nand);
    } else if component.kind == Or {
      BinaryOp(components, lookup, i, Gates.Or);
    } else if component.kind == Nor {
      BinaryOp(components, lookup, i, Gates.Nor);
    } else if component.kind == Xor {
      BinaryOp(components, lookup, i, Gates.Xor);
    } else if component.kind == Xnor {
      BinaryOp(components, lookup, i, Gates.Xnor);
    } else if component.kind == Not {
      var aOut := components[lookup[component.inputs[0]]];
      components[i] := component.(state := if aOut.state == X then X else Gates.Not(aOut.state));
    }
  }

  /** Once visited, a component keeps the value it got for the rest of the pass. */
  lemma {:induction false} UptoStable(s: seq<Component>, lookup: map<string, nat>, n: nat, j: nat)
    requires Resolvable(s, lookup) && j < n <= |s|
    ensures Upto(s, lookup, n)[j] == Upto(s, lookup, j + 1)[j]
    decreases n
  {
    if n > j + 1 {
      var m := n - 1;
      UptoStable(s, lookup, m, j);
      UptoNextKeeps(s, lookup, m, j);
      assert Upto(s, lookup, n) == Upto(s, lookup, m + 1);
    } else {
      assert n == j + 1;
    }
  }

  /** Visiting component m changes no other component. */
  lemma UptoNextKeeps(s: seq<Component>, lookup: map<string, nat>, m: nat, j: nat)
    requires Resolvable(s, lookup) && j < m < |s|
    ensures Upto(s, lookup, m + 1)[j] == Upto(s, lookup, m)[j]
  {
  }

  /** Midway through a pass, every visited component already holds the value the whole pass
      gives it. */
  lemma UptoAgrees(s: seq<Component>, lookup: map<string, nat>, n: nat)
    requires Resolvable(s, lookup) && n <= |s|
    ensures forall k :: 0 <= k < n ==> Upto(s, lookup, n)[k] == Pass(s, lookup)[k]
  {
    forall k | 0 <= k < n ensures Upto(s, lookup, n)[k] == Pass(s, lookup)[k] {
      UptoStable(s, lookup, n, k);
      UptoStable(s, lookup, |s|, k);
    }
  }

  /** Midway through a pass, the visited components hold their new values and the rest
      their old ones. */
  lemma UptoIsMixed(s: seq<Component>, lookup: map<string, nat>, n: nat)
    requires Resolvable(s, lookup) && n <= |s|
    ensures Upto(s, lookup, n) == Pass(s, lookup)[..n] + s[n..]
  {
    var u, p := Upto(s, lookup, n), Pass(s, lookup);
    UptoAgrees(s, lookup, n);
    assert u[..n] == p[..n];
    assert u[n..] == s[n..];
    assert u == u[..n] + u[n..];
  }

  /** What one pass gives the component at index j: it is recomputed from the network as it
      stands when j is visited, in which the components before j already hold this pass's
      values and those from j on still hold the previous ones. A feedback input placed later
      in the list is therefore read with its value from the previous pass. */
  lemma PassAt(s: seq<Component>, lookup: map<string, nat>, j: nat)
    requires Resolvable(s, lookup) && j < |s|
    ensures Pass(s, lookup)[j] == s[j].(state := Recompute(Pass(s, lookup)[..j] + s[j..], lookup, s[j]))
  {
    UptoStable(s, lookup, |s|, j);
    UptoIsMixed(s, lookup, j);
  }

  /** If every state is 0 or 1 before a pass, every state is 0 or 1 after it: "x" never
      arises from known values. */
  lemma {:induction false} UptoKeepsKnown(s: seq<Component>, lookup: map<string, nat>, n: nat)
    requires Resolvable(s, lookup) && n <= |s| && AllKnown(s)
    ensures AllKnown(Upto(s, lookup, n))
    decreases n
  {
    if n > 0 {
      UptoKeepsKnown(s, lookup, n - 1);
      var t := Upto(s, lookup, n - 1);
      ResolvableShape(s, t, lookup);
    }
  }

  lemma PassKeepsKnown(s: seq<Component>, lookup: map<string, nat>)
    requires Resolvable(s, lookup) && AllKnown(s)
    ensures AllKnown(Pass(s, lookup))
  {
    UptoKeepsKnown(s, lookup, |s|);
  }

  lemma {:induction false} PassesKeepKnown(s: seq<Component>, lookup: map<string, nat>, n: nat)
    requires Resolvable(s, lookup) && AllKnown(s)
    ensures AllKnown(Passes(s, lookup, n))
  {
    if n > 0 {
      var m := n - 1;
      PassesKeepKnown(s, lookup, m);
      PassKeepsKnown(Passes(s, lookup, m), lookup);
      assert Passes(s, lookup, n) == Pass(Passes(s, lookup, m), lookup);
    }
  }

  /** A gate that reads "x" when it is visited gets "x", even where its other input alone
      would decide a known gate (an `and` reading 0 and "x" gets "x"). */
  lemma PassAbsorbsUnknown(s: seq<Component>, lookup: map<string, nat>, j: nat, m: nat)
    requires Resolvable(s, lookup) && j < |s| && IsBase(s[j].kind) && m < Arity(s[j].kind)
    requires Read(Pass(s, lookup)[..j] + s[j..], lookup, s[j].inputs[m]) == X
    ensures Pass(s, lookup)[j].state == X
  {
    PassAt(s, lookup, j);
  }
}
