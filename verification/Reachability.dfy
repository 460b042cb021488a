/** Reachability in the dependency graph, by definition and by a stack of nodes to visit. */
module Reachability {
  import opened Collections

  type Node = nat

  /** The successors of each node that has any. */
  type Graph = map<Node, seq<Node>>

  function Next(g: Graph, n: Node): seq<Node>
  {
    if n in g then g[n] else []
  }

  /** A walk along edges. */
  ghost predicate IsPath(g: Graph, p: seq<Node>)
  {
    p != [] && forall i :: 0 < i < |p| ==> p[i] in Next(g, p[i - 1])
  }

  ghost predicate Joins(g: Graph, p: seq<Node>, a: Node, b: Node)
  {
    IsPath(g, p) && p[0] == a && p[|p| - 1] == b
  }

  /** Some walk, possibly of no steps, leads from a to b. */
  ghost predicate Reaches(g: Graph, a: Node, b: Node)
  {
    exists p :: Joins(g, p, a, b)
  }

  lemma ReachesSelf(g: Graph, a: Node)
    ensures Reaches(g, a, a)
  {
    assert Joins(g, [a], a, a);
  }

  lemma ReachesOn(g: Graph, a: Node, b: Node, c: Node)
    requires Reaches(g, a, b) && c in Next(g, b)
    ensures Reaches(g, a, c)
  {
    var p :| Joins(g, p, a, b);
    var q := p + [c];
    forall i | 0 < i < |q| ensures q[i] in Next(g, q[i - 1]) {
      if i < |p| { assert p[i] in Next(g, p[i - 1]); }
    }
    assert Joins(g, q, a, c);
  }

  // ----- Sets of reachable nodes -----

  function Targets(g: Graph): set<Node>
  {
    set n, i | n in g && 0 <= i < |g[n]| :: g[n][i]
  }

  ghost predicate ReachedFrom(g: Graph, roots: set<Node>, n: Node)
  {
    exists r :: r in roots && Reaches(g, r, n)
  }

  /** The nodes some root reaches. */
  ghost function ReachSet(g: Graph, roots: set<Node>): set<Node>
  {
    set n | n in roots + Targets(g) && ReachedFrom(g, roots, n)
  }

  lemma ReachSetMembers(g: Graph, roots: set<Node>, n: Node)
    ensures n in ReachSet(g, roots) <==> ReachedFrom(g, roots, n)
  {
    if ReachedFrom(g, roots, n) {
      var r :| r in roots && Reaches(g, r, n);
      var p :| Joins(g, p, r, n);
      if |p| > 1 {
        var before := p[|p| - 2];
        assert n in Next(g, before);
        var i :| 0 <= i < |g[before]| && g[before][i] == n;
      }
    }
  }

  lemma {:induction false} PathStaysInside(g: Graph, s: set<Node>, p: seq<Node>)
    requires IsPath(g, p) && p[0] in s && forall n, m :: n in s && m in Next(g, n) ==> m in s
    ensures forall i :: 0 <= i < |p| ==> p[i] in s
  {
    if |p| > 1 {
      var rest := p[..|p| - 1];
      forall i | 0 < i < |rest| ensures rest[i] in Next(g, rest[i - 1]) { assert p[i] in Next(g, p[i - 1]); }
      PathStaysInside(g, s, rest);
      assert rest[|p| - 2] in s;
      assert p[|p| - 1] in Next(g, p[|p| - 2]);
    }
  }

  /** Marks everything reachable, pushing each node once, when it is first marked. */
  method Mark(g: Graph, roots: seq<Node>) returns (marked: set<Node>)
    ensures marked == ReachSet(g, SetOf(roots))
  {
    hide Reaches, ReachedFrom;
    ghost var rs := SetOf(roots);
    marked := SetOf(roots);
    var stack := roots;
    forall r | r in roots ensures ReachedFrom(g, rs, r) { RootReached(g, rs, r); }
    while stack != []
      invariant forall n :: n in stack ==> n in marked
      invariant rs <= marked <= rs + Targets(g)
      invariant forall n :: n in marked ==> ReachedFrom(g, rs, n)
      invariant forall n, m :: n in marked && n !in stack && m in Next(g, n) ==> m in marked
      decreases rs + Targets(g) - marked, |stack|
    {
      var n := stack[|stack| - 1];
      ghost var before := stack;
      stack := stack[..|stack| - 1];
      assert before == stack + [n];
      marked, stack := MarkNext(g, n, marked, stack, rs);
    }
    MarkedAll(g, rs, marked);
  }

  /** Marks the successors of one node and pushes those that were not marked. */
  method MarkNext(g: Graph, n: Node, marked: set<Node>, stack: seq<Node>, ghost rs: set<Node>)
    returns (marked': set<Node>, stack': seq<Node>)
    requires n in marked && rs <= marked <= rs + Targets(g)
    requires forall m :: m in marked ==> ReachedFrom(g, rs, m)
    requires forall m :: m in stack ==> m in marked
    requires forall m, k :: m in marked && m !in stack && m != n && k in Next(g, m) ==> k in marked
    ensures rs <= marked <= marked' <= rs + Targets(g)
    ensures forall m :: m in marked' ==> ReachedFrom(g, rs, m)
    ensures forall m :: m in stack' ==> m in marked'
    ensures forall m, k :: m in marked' && m !in stack' && k in Next(g, m) ==> k in marked'
    ensures marked' == marked ==> stack' == stack
  {
    hide Reaches, ReachedFrom;
    marked', stack' := marked, stack;
    var nexts := Next(g, n);
    for i := 0 to |nexts|
      invariant marked <= marked' <= rs + Targets(g) && (marked' == marked ==> stack' == stack)
      invariant forall m :: m in marked' ==> ReachedFrom(g, rs, m)
      invariant forall m :: m in stack' ==> m in marked'
      invariant forall m :: m in stack ==> m in stack'
      invariant forall m :: m in marked' && m !in marked ==> m in stack'
      invariant forall j :: 0 <= j < i ==> nexts[j] in marked'
    {
      var p := nexts[i];
      if p !in marked' {
        NextReached(g, rs, n, p);
        assert g[n][i] == p;
        marked', stack' := marked' + {p}, stack' + [p];
      }
    }
  }

  lemma RootReached(g: Graph, rs: set<Node>, r: Node)
    requires r in rs
    ensures ReachedFrom(g, rs, r)
  {
    ReachesSelf(g, r);
  }

  lemma NextReached(g: Graph, rs: set<Node>, n: Node, p: Node)
    requires ReachedFrom(g, rs, n) && p in Next(g, n)
    ensures ReachedFrom(g, rs, p)
  {
    var r :| r in rs && Reaches(g, r, n);
    ReachesOn(g, r, n, p);
  }

  lemma MarkedAll(g: Graph, rs: set<Node>, marked: set<Node>)
    requires rs <= marked && (forall n :: n in marked ==> ReachedFrom(g, rs, n))
    requires forall n, m :: n in marked && m in Next(g, n) ==> m in marked
    ensures marked == ReachSet(g, rs)
  {
    forall n ensures n in marked <==> n in ReachSet(g, rs) {
      ReachSetMembers(g, rs, n);
      if ReachedFrom(g, rs, n) {
        var r :| r in rs && Reaches(g, r, n);
        var p :| Joins(g, p, r, n);
        PathStaysInside(g, marked, p);
      }
    }
  }

  // ----- Turning edges round -----

  /** The same edges, from child to parent. */
  ghost predicate Reversed(g: Graph, up: Graph)
  {
    forall a, b :: b in Next(g, a) <==> a in Next(up, b)
  }

  function Backwards(p: seq<Node>): (q: seq<Node>)
    ensures |q| == |p| && forall i :: 0 <= i < |p| ==> q[i] == p[|p| - 1 - i]
  {
    seq(|p|, i requires 0 <= i < |p| => p[|p| - 1 - i])
  }

  lemma ReversedReaches(g: Graph, up: Graph, a: Node, b: Node)
    requires Reversed(g, up)
    ensures Reaches(g, a, b) <==> Reaches(up, b, a)
  {
    if Reaches(g, a, b) {
      var p :| Joins(g, p, a, b);
      BackwardsJoins(g, up, p, a, b);
    }
    if Reaches(up, b, a) {
      var p :| Joins(up, p, b, a);
      BackwardsJoins(up, g, p, b, a);
    }
  }

  lemma BackwardsJoins(g: Graph, up: Graph, p: seq<Node>, a: Node, b: Node)
    requires (forall x, y :: y in Next(g, x) ==> x in Next(up, y)) && Joins(g, p, a, b)
    ensures Joins(up, Backwards(p), b, a)
  {
    var q := Backwards(p);
    forall i | 0 < i < |q| ensures q[i] in Next(up, q[i - 1]) {
      assert p[|p| - i] in Next(g, p[|p| - 1 - i]);
    }
  }
}
