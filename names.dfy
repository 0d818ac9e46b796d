/** Hierarchical component ids. The builders name the components of a group
    with the template `${name}.${part}` (mod.ts, 8bit-computer.ts); this module
    gives that template a name and proves when two such ids differ. */
module Names {

  /** The id `${name}.${part}`. */
  function Qualify(name: string, part: string): (id: string)
    ensures |id| == |name| + 1 + |part|
    ensures id[..|name| + 1] == name + "."
    ensures id[|name| + 1..] == part
  {
    name + "." + part
  }

  /** The text `${i}` of a one-digit index. */
  function IndexText(i: nat): (t: string)
    requires i <= 9
    ensures |t| == 1 && '0' <= t[0] <= '9'
  {
    [('0' as int + i) as char]
  }

  lemma IndexTextInjective(i: nat, j: nat)
    requires i <= 9 && j <= 9
    ensures IndexText(i) == IndexText(j) <==> i == j
  {
    if IndexText(i) == IndexText(j) {
      assert IndexText(i)[0] == IndexText(j)[0];
    }
  }

  /** A name without a separator, such as the name of a top-level component or group. */
  predicate DotFree(s: string) {
    forall j :: 0 <= j < |s| ==> s[j] != '.'
  }

  /** `id` lies in the group `name`: it starts with `${name}.`. */
  predicate InGroup(id: string, name: string) {
    |name| + 1 <= |id| && id[..|name| + 1] == name + "."
  }

  lemma QualifyInGroup(name: string, part: string)
    ensures InGroup(Qualify(name, part), name)
  {
  }

  /** A member of a sub-group is a member of the group. */
  lemma {:induction false} SubGroupInGroup(id: string, name: string, sub: string)
    requires InGroup(id, Qualify(name, sub))
    ensures InGroup(id, name)
  {
    var n := Qualify(name, sub);
    assert id[..|name| + 1] == id[..|n| + 1][..|name| + 1];
    assert n[..|name| + 1] == name + ".";
  }

  /** Two ids of the same group are equal exactly when their parts are. */
  lemma {:induction false} QualifyInjective(name: string, x: string, y: string)
    ensures Qualify(name, x) == Qualify(name, y) <==> x == y
  {
    if Qualify(name, x) == Qualify(name, y) {
      assert x == Qualify(name, x)[|name| + 1..];
    }
  }

  /** Names of distinct groups (without separators) are distinct prefixes. */
  lemma {:induction false} GroupsDisjoint(id: string, a: string, b: string)
    requires DotFree(a) && DotFree(b) && a != b
    requires InGroup(id, a)
    ensures !InGroup(id, b)
  {
    if |b| + 1 <= |id| {
      if |a| < |b| {
        assert id[|a|] == (a + ".")[|a|] == '.';
        assert id[..|b| + 1][|a|] != (b + ".")[|a|];
      } else if |b| < |a| {
        assert id[|b|] == (a + ".")[|b|] == a[|b|] != '.';
        assert id[..|b| + 1][|b|] != (b + ".")[|b|];
      } else {
        assert id[..|b| + 1][..|b|] == a != b;
      }
    }
  }

  /** A name without a separator belongs to no group. */
  lemma {:induction false} DotFreeInNoGroup(id: string, name: string)
    requires DotFree(id)
    ensures !InGroup(id, name)
  {
    if |name| + 1 <= |id| {
      assert id[..|name| + 1][|name|] != (name + ".")[|name|];
    }
  }
}
