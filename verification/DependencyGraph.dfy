/** Dependency graphs, shared by the canvas compiler and the scheduler.

    A graph maps every known task to the set of tasks it depends on. A dependency may name a task
    that the graph does not know; such a task has no dependencies of its own. */
module DependencyGraph {

  type Graph<N> = map<N, set<N>>

  function Deps<N>(g: Graph<N>, n: N): set<N> {
    if n in g then g[n] else {}
  }

  /** Every element of `p` depends on the next one. */
  ghost predicate IsPath<N>(g: Graph<N>, p: seq<N>) {
    forall i :: 0 <= i < |p| - 1 ==> p[i + 1] in Deps(g, p[i])
  }

  ghost predicate IsCycle<N>(g: Graph<N>, p: seq<N>) {
    |p| >= 2 && IsPath(g, p) && p[0] == p[|p| - 1]
  }

  ghost predicate HasCycle<N(!new)>(g: Graph<N>) {
    exists p :: IsCycle(g, p)
  }

  ghost predicate HasRepeat<N>(p: seq<N>) {
    exists i, j :: 0 <= i < j < |p| && p[i] == p[j]
  }

  function Elems<N>(s: seq<N>): set<N> {
    set x | x in s
  }

  /** Every task in `order` is preceded in it by all the tasks it depends on. */
  ghost predicate TopoOrder<N>(g: Graph<N>, order: seq<N>) {
    forall i :: 0 <= i < |order| ==> Deps(g, order[i]) <= Elems(order[..i])
  }

  lemma {:induction false} ElemsAppend<N>(s: seq<N>, x: N)
    ensures Elems(s + [x]) == Elems(s) + {x}
  {
    assert x in s + [x];
  }

  lemma {:induction false} TopoAppend<N>(g: Graph<N>, order: seq<N>, n: N)
    requires TopoOrder(g, order) && Deps(g, n) <= Elems(order)
    ensures TopoOrder(g, order + [n])
  {
    var longer := order + [n];
    assert longer[..|order|] == order;
    forall i | 0 <= i < |order|
      ensures Deps(g, longer[i]) <= Elems(longer[..i])
    {
      assert longer[..i] == order[..i];
    }
  }

  /** A dependency path that starts at position `i` of a topological order stays strictly before `i`. */
  lemma {:induction false} PathDescends<N>(g: Graph<N>, order: seq<N>, p: seq<N>, i: nat, k: nat)
    requires TopoOrder(g, order) && IsPath(g, p)
    requires i < |order| && 1 <= k < |p| && p[0] == order[i]
    ensures p[k] in order[..i]
  {
    if k > 1 {
      PathDescends(g, order, p, i, k - 1);
      var j :| 0 <= j < i && order[j] == p[k - 1];
      assert p[(k - 1) + 1] in Elems(order[..j]);
    } else {
      assert p[0 + 1] in Elems(order[..i]);
    }
  }

  /** No task of a topological order has a dependency path that visits a task twice. */
  lemma {:induction false} OrderForbidsRepeat<N>(g: Graph<N>, order: seq<N>, p: seq<N>)
    requires TopoOrder(g, order) && IsPath(g, p)
    requires |p| >= 1 && p[0] in order
    ensures !HasRepeat(p)
  {
    forall a, b | 0 <= a < b < |p|
      ensures p[a] != p[b]
    {
      if a > 0 {
        var i :| 0 <= i < |order| && order[i] == p[0];
        PathDescends(g, order, p, i, a);
      }
      var i := FirstIndex(order, p[a]);
      PathDescends(g, order, p[a..], i, b - a);
    }
  }

  lemma {:induction false} OrderForbidsCycle<N(!new)>(g: Graph<N>, order: seq<N>)
    requires TopoOrder(g, order) && g.Keys <= Elems(order)
    ensures !HasCycle(g)
  {
    forall p | IsCycle(g, p)
      ensures false
    {
      assert p[0 + 1] in Deps(g, p[0]);
      OrderForbidsRepeat(g, order, p);
    }
  }

  ghost function FirstIndex<N>(s: seq<N>, x: N): (i: nat)
    requires x in s
    ensures i < |s| && s[i] == x && x !in s[..i]
  {
    if s[0] == x then 0 else 1 + FirstIndex(s[1..], x)
  }

  /** A path that visits a task twice contains a cycle. */
  lemma {:induction false} RepeatGivesCycle<N(!new)>(g: Graph<N>, p: seq<N>)
    requires IsPath(g, p) && HasRepeat(p)
    ensures HasCycle(g)
  {
    var i, j :| 0 <= i < j < |p| && p[i] == p[j];
    assert IsCycle(g, p[i..j + 1]);
  }

  /** A sequence longer than a set that holds all its elements repeats one of them. */
  lemma {:induction false} Pigeonhole<N>(p: seq<N>, s: set<N>)
    requires Elems(p) <= s && |p| > |s|
    ensures HasRepeat(p)
  {
    if p == [] {
    } else {
      var last := |p| - 1;
      if k :| 0 <= k < last && p[k] == p[last] {
      } else {
        Pigeonhole(p[..last], s - {p[last]});
        var i, j :| 0 <= i < j < |p[..last]| && p[..last][i] == p[..last][j];
        assert p[i] == p[j];
      }
    }
  }
}
